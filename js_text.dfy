/** Values and strings as the application's JavaScript sees them: optional
    (null/undefined) fields, truthiness and `||` fallbacks, ASCII
    `toLowerCase`, `includes`, `split`, `trim`, `split(c).pop()` and the
    decimal text of a number inside a template literal. */
module JsText {
  import Seqs

  /** A field that may be `null`/`undefined` (None) or hold a value. */
  datatype Option<+T> = None | Some(value: T)

  /** JavaScript truthiness of an optional string: present and non-empty. */
  predicate Truthy(v: Option<string>) {
    v.Some? && v.value != ""
  }

  /** `a || b` on optional strings. */
  function Or(a: Option<string>, b: Option<string>): Option<string> {
    if Truthy(a) then a else b
  }

  /** `a || "default"`: the fallback text is used when `a` is falsy. */
  function OrElse(a: Option<string>, default: string): string {
    if Truthy(a) then a.value else default
  }

  // ---------------------------------------------------------------------------
  // Whitespace, as matched by the regular-expression class `\s` and removed by
  // `String.prototype.trim` (the two use the same set of characters).

  predicate IsSpace(c: char) {
    || ('\t' <= c <= '\r')
    || c == ' '
    || c == '\U{00A0}'
    || c == '\U{1680}'
    || ('\U{2000}' <= c <= '\U{200A}')
    || c == '\U{2028}'
    || c == '\U{2029}'
    || c == '\U{202F}'
    || c == '\U{205F}'
    || c == '\U{3000}'
    || c == '\U{FEFF}'
  }

  predicate NoSpace(s: string) {
    forall i :: 0 <= i < |s| ==> !IsSpace(s[i])
  }

  /** A character `\s` does not match. */
  predicate NotSpace(c: char) {
    !IsSpace(c)
  }

  /** `s.replace(/\s/g, '')`: every whitespace character removed, the others kept in order. */
  function StripSpaces(s: string): (r: string)
    ensures r == Seqs.Filter(s, NotSpace)
    ensures NoSpace(r)
  {
    if s == [] then []
    else
      var last := s[|s| - 1];
      StripSpaces(s[..|s| - 1]) + (if IsSpace(last) then [] else [last])
  }

  lemma {:induction false} StripSpacesKeepsClean(s: string)
    requires NoSpace(s)
    ensures StripSpaces(s) == s
  {
    Seqs.FilterAllPass(s, NotSpace);
  }

  // ---------------------------------------------------------------------------
  // Case folding (ASCII only)

  function LowerChar(c: char): char {
    if 'A' <= c <= 'Z' then (c as int + 32) as char else c
  }

  /** `s.toLowerCase()`, restricted to the ASCII letters. */
  function Lower(s: string): (r: string)
    ensures |r| == |s|
    ensures forall i :: 0 <= i < |s| ==> r[i] == LowerChar(s[i])
  {
    if s == [] then [] else [LowerChar(s[0])] + Lower(s[1..])
  }

  lemma LowerIdempotent(s: string)
    ensures Lower(Lower(s)) == Lower(s)
  {
  }

  // ---------------------------------------------------------------------------
  // Substring search

  /** `s.includes(t)`: scans `s` for a position where `t` starts. */
  predicate Includes(s: string, t: string)
    decreases |s|
  {
    t <= s || (s != [] && Includes(s[1..], t))
  }

  /** `t` occurs in `s` starting at offset `k`. */
  predicate OccursAt(s: string, t: string, k: int) {
    0 <= k <= |s| - |t| && s[k..k + |t|] == t
  }

  /** `includes` is exactly "occurs at some offset". */
  lemma {:induction false} IncludesAt(s: string, t: string)
    ensures Includes(s, t) <==> exists k :: OccursAt(s, t, k)
  {
    if t <= s {
      assert OccursAt(s, t, 0);
    } else if s == [] {
      assert forall k :: !OccursAt(s, t, k);
    } else {
      IncludesAt(s[1..], t);
      if Includes(s[1..], t) {
        var k :| OccursAt(s[1..], t, k);
        assert OccursAt(s, t, k + 1);
      }
      if exists k :: OccursAt(s, t, k) {
        var k :| OccursAt(s, t, k);
        if k == 0 {
          assert false;
        } else {
          assert OccursAt(s[1..], t, k - 1);
        }
      }
    }
  }

  // ---------------------------------------------------------------------------
  // split / join

  /** `s.split(sep)` for a one-character separator: the maximal runs between separators. */
  function Split(s: string, sep: char): (parts: seq<string>)
    ensures |parts| >= 1
    ensures sep in s ==> |parts| >= 2
    ensures forall i :: 0 <= i < |parts| ==> sep !in parts[i]
    decreases |s|
  {
    if s == [] then [""]
    else
      var rest := Split(s[1..], sep);
      if s[0] == sep then [""] + rest
      else [[s[0]] + rest[0]] + rest[1..]
  }

  /** `parts.join(sep)`. */
  function Join(parts: seq<string>, sep: char): string
  {
    if |parts| == 0 then ""
    else if |parts| == 1 then parts[0]
    else parts[0] + [sep] + Join(parts[1..], sep)
  }

  /** Number of occurrences of `c` in `s`. */
  function Occurrences(s: string, c: char): nat {
    if s == [] then 0 else (if s[0] == c then 1 else 0) + Occurrences(s[1..], c)
  }

  /** Splitting loses nothing: joining the pieces back gives the original text. */
  lemma {:induction false} JoinSplit(s: string, sep: char)
    ensures Join(Split(s, sep), sep) == s
  {
    if s != [] {
      var rest := Split(s[1..], sep);
      JoinSplit(s[1..], sep);
      if s[0] != sep {
        if |rest| == 1 {
        } else {
          calc {
            Join(Split(s, sep), sep);
            ([s[0]] + rest[0]) + [sep] + Join(rest[1..], sep);
            [s[0]] + (rest[0] + [sep] + Join(rest[1..], sep));
            [s[0]] + Join(rest, sep);
          }
        }
      }
    }
  }

  /** And joining separator-free pieces then splitting gives the pieces back. */
  lemma {:induction false} SplitJoin(parts: seq<string>, sep: char)
    requires |parts| >= 1
    requires forall i :: 0 <= i < |parts| ==> sep !in parts[i]
    ensures Split(Join(parts, sep), sep) == parts
    decreases |parts|, |parts[0]|
  {
    var p := parts[0];
    if p == [] {
      if |parts| > 1 {
        SplitJoin(parts[1..], sep);
        assert Join(parts, sep) == [sep] + Join(parts[1..], sep);
        assert [sep] + Join(parts[1..], sep) != [];
      }
    } else {
      var tail := [p[1..]] + parts[1..];
      assert sep !in p[1..] by { assert forall c :: c in p[1..] ==> c in p; }
      SplitJoin(tail, sep);
      var j := Join(parts, sep);
      if |parts| == 1 {
        assert j == p && Join(tail, sep) == p[1..];
      } else {
        assert Join(tail, sep) == p[1..] + [sep] + Join(parts[1..], sep);
        assert j == [p[0]] + Join(tail, sep);
      }
      assert j[0] == p[0] && j[1..] == Join(tail, sep);
      assert p[0] != sep by { assert p[0] in p; }
      assert [p[0]] + p[1..] == p;
    }
  }

  /** Every separator starts a new piece. */
  lemma {:induction false} SplitCount(s: string, sep: char)
    ensures |Split(s, sep)| == Occurrences(s, sep) + 1
  {
    if s != [] {
      SplitCount(s[1..], sep);
    }
  }

  /** `s.split(sep).pop()`: the text after the last separator, or all of `s` when it has none. */
  function LastPiece(s: string, sep: char): (r: string)
    ensures sep !in r
  {
    var parts := Split(s, sep);
    parts[|parts| - 1]
  }

  lemma {:induction false} LastPieceOfSeparatorFree(s: string, sep: char)
    requires sep !in s
    ensures LastPiece(s, sep) == s
  {
    SplitJoin([s], sep);
  }

  /** Whatever precedes the last separator does not affect the last piece. */
  lemma {:induction false} LastPieceAfter(prefix: string, sep: char, t: string)
    requires sep !in t
    ensures LastPiece(prefix + [sep] + t, sep) == t
    decreases |prefix|
  {
    var s := prefix + [sep] + t;
    if prefix == [] {
      assert s[1..] == t;
      LastPieceOfSeparatorFree(t, sep);
    } else {
      assert s[1..] == prefix[1..] + [sep] + t;
      assert sep in s[1..];
      LastPieceAfter(prefix[1..], sep, t);
    }
  }

  /** Every piece of a joined list of strings is inside the joined string. */
  lemma {:induction false} JoinedPartIn(parts: seq<string>, sep: char, i: nat)
    requires i < |parts|
    ensures forall c :: c in parts[i] ==> c in Join(parts, sep)
    decreases |parts|
  {
    if |parts| > 1 {
      assert Join(parts, sep) == parts[0] + [sep] + Join(parts[1..], sep);
      if i > 0 {
        JoinedPartIn(parts[1..], sep, i - 1);
      }
    }
  }

  /** The last piece holds only characters of the string it came from. */
  lemma {:induction false} LastPieceChars(s: string, sep: char)
    ensures forall c :: c in LastPiece(s, sep) ==> c in s
  {
    var parts := Split(s, sep);
    JoinSplit(s, sep);
    JoinedPartIn(parts, sep, |parts| - 1);
  }

  // ---------------------------------------------------------------------------
  // trim

  /** Leading whitespace removed: the longest suffix that does not start with whitespace. */
  function TrimStart(s: string): (r: string)
    ensures |r| <= |s| && r == s[|s| - |r|..]
    ensures forall i :: 0 <= i < |s| - |r| ==> IsSpace(s[i])
    ensures r != [] ==> !IsSpace(r[0])
  {
    if s != [] && IsSpace(s[0]) then TrimStart(s[1..]) else s
  }

  /** Trailing whitespace removed: the longest prefix that does not end with whitespace. */
  function TrimEnd(s: string): (r: string)
    ensures |r| <= |s| && r == s[..|r|]
    ensures forall i :: |r| <= i < |s| ==> IsSpace(s[i])
    ensures r != [] ==> !IsSpace(r[|r| - 1])
  {
    if s != [] && IsSpace(s[|s| - 1]) then TrimEnd(s[..|s| - 1]) else s
  }

  /** `s.trim()`: neither starts nor ends with whitespace. */
  function Trim(s: string): (r: string)
    ensures |r| <= |s|
    ensures r != [] ==> !IsSpace(r[0]) && !IsSpace(r[|r| - 1])
  {
    TrimEnd(TrimStart(s))
  }

  /** `trim` removes only whitespace, and only at the two ends: `s` is some whitespace, then
      `Trim(s)`, then some whitespace. */
  lemma TrimShape(s: string)
    ensures var k := |s| - |TrimStart(s)|; var r := Trim(s);
      && k + |r| <= |s|
      && r == s[k..k + |r|]
      && (forall i :: 0 <= i < k ==> IsSpace(s[i]))
      && (forall i :: k + |r| <= i < |s| ==> IsSpace(s[i]))
  {
    var t := TrimStart(s);
    var k := |s| - |t|;
    var r := TrimEnd(t);
    assert t == s[k..];
    assert r == t[..|r|];
    forall i | k + |r| <= i < |s|
      ensures IsSpace(s[i])
    {
      assert t[i - k] == s[i];
    }
  }

  lemma TrimIdempotent(s: string)
    ensures Trim(Trim(s)) == Trim(s)
  {
    var r := Trim(s);
    assert TrimStart(r) == r;
    assert TrimEnd(r) == r;
  }

  // ---------------------------------------------------------------------------
  // Numbers in template literals

  predicate IsDigit(c: char) {
    '0' <= c <= '9'
  }

  predicate AllDigits(s: string) {
    forall i :: 0 <= i < |s| ==> IsDigit(s[i])
  }

  /** The decimal text of a natural number, as `${n}` renders it. */
  function Decimal(n: nat): (r: string)
    ensures r != [] && AllDigits(r)
    ensures |r| == 1 || r[0] != '0'
  {
    var d := ['0' + (n % 10) as char];
    if n < 10 then d else Decimal(n / 10) + d
  }

  /** Read a string of digits back as a number. */
  function DigitsValue(s: string): nat
    requires AllDigits(s)
  {
    if s == [] then 0 else DigitsValue(s[..|s| - 1]) * 10 + (s[|s| - 1] - '0') as nat
  }

  lemma {:induction false} DecimalValue(n: nat)
    ensures DigitsValue(Decimal(n)) == n
  {
    var d := ['0' + (n % 10) as char];
    if n >= 10 {
      DecimalValue(n / 10);
      var r := Decimal(n / 10) + d;
      assert r[..|r| - 1] == Decimal(n / 10);
    }
  }

  // ---------------------------------------------------------------------------
  // encodeURI

  /** The characters `encodeURI` leaves as they are: letters, digits and `;,/?:@&=+$-_.!~*'()#`. */
  predicate UriKept(c: char) {
    'a' <= c <= 'z' || 'A' <= c <= 'Z' || IsDigit(c) || c in UriMarks
  }

  const UriMarks: set<char> := {';', ',', '/', '?', ':', '@', '&', '=', '+', '$', '-', '_', '.', '!', '~', '*', '\'', '(', ')', '#'}

  /** An upper-case hexadecimal digit. */
  function HexDigit(d: nat): (c: char)
    requires d < 16
    ensures UriKept(c)
  {
    if d < 10 then '0' + d as char else 'A' + (d - 10) as char
  }

  /** The UTF-8 encoding of a code point. */
  function Utf8(cp: nat): (bytes: seq<nat>)
    requires cp < 0x11_0000
    ensures 1 <= |bytes| <= 4
    ensures forall i :: 0 <= i < |bytes| ==> bytes[i] < 256
  {
    if cp < 0x80 then [cp]
    else if cp < 0x800 then [0xC0 + cp / 0x40, 0x80 + cp % 0x40]
    else if cp < 0x1_0000 then [0xE0 + cp / 0x1000, 0x80 + (cp / 0x40) % 0x40, 0x80 + cp % 0x40]
    else [0xF0 + cp / 0x4_0000, 0x80 + (cp / 0x1000) % 0x40, 0x80 + (cp / 0x40) % 0x40, 0x80 + cp % 0x40]
  }

  /** Each byte written `%XY`. */
  function PercentBytes(bytes: seq<nat>): (r: string)
    requires forall i :: 0 <= i < |bytes| ==> bytes[i] < 256
    ensures |r| == 3 * |bytes|
    ensures bytes != [] ==> r[0] == '%'
    ensures forall i :: 0 <= i < |r| ==> UriKept(r[i]) || r[i] == '%'
  {
    if bytes == [] then []
    else
      var b := bytes[|bytes| - 1];
      PercentBytes(bytes[..|bytes| - 1]) + ['%', HexDigit(b / 16), HexDigit(b % 16)]
  }

  /** One character as `encodeURI` writes it. */
  function EncodeChar(c: char): (r: string)
    ensures UriKept(c) ==> r == [c]
    ensures !UriKept(c) ==> |r| >= 3 && r[0] == '%'
    ensures forall i :: 0 <= i < |r| ==> UriKept(r[i]) || r[i] == '%'
  {
    if UriKept(c) then [c] else PercentBytes(Utf8(c as int))
  }

  /** `encodeURI(s)`: kept characters as they are, every other one as the `%XY` escapes of
      its UTF-8 bytes. */
  function EncodeUri(s: string): (r: string)
    ensures |r| >= |s|
  {
    if s == [] then [] else EncodeChar(s[0]) + EncodeUri(s[1..])
  }

  /** Encoding works character by character. */
  lemma {:induction false} EncodeUriAppend(a: string, b: string)
    ensures EncodeUri(a + b) == EncodeUri(a) + EncodeUri(b)
  {
    if a == [] {
      assert a + b == b;
    } else {
      assert (a + b)[0] == a[0] && (a + b)[1..] == a[1..] + b;
      EncodeUriAppend(a[1..], b);
      var x, y, z := EncodeChar(a[0]), EncodeUri(a[1..]), EncodeUri(b);
      assert x + (y + z) == (x + y) + z;
    }
  }

  /** The encoding holds only kept characters and the `%` of its escapes. */
  lemma {:induction false} EncodeUriChars(s: string)
    ensures forall i :: 0 <= i < |EncodeUri(s)| ==> UriKept(EncodeUri(s)[i]) || EncodeUri(s)[i] == '%'
  {
    if s != [] {
      EncodeUriChars(s[1..]);
      var r, p, q := EncodeUri(s), EncodeChar(s[0]), EncodeUri(s[1..]);
      assert r == p + q;
      forall i | 0 <= i < |r|
        ensures UriKept(r[i]) || r[i] == '%'
      {
        if i < |p| {
          assert r[i] == p[i];
        } else {
          assert r[i] == q[i - |p|];
        }
      }
    }
  }

  /** A string of kept characters is its own encoding. */
  lemma {:induction false} EncodeUriKeeps(s: string)
    requires forall i :: 0 <= i < |s| ==> UriKept(s[i])
    ensures EncodeUri(s) == s
  {
    if s != [] {
      EncodeUriKeeps(s[1..]);
      assert [s[0]] + s[1..] == s;
    }
  }
}
