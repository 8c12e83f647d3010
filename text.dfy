/**
 * The handful of Python string operations the classifier relies on:
 * lower/upper casing (ASCII letters only), strip() with Python's whitespace set,
 * isalnum() (ASCII letters and digits), the ordering of `<`/`>` on str,
 * str(int), and split/join on a single separator character.
 */
module Text {

  function LowerChar(c: char): char {
    if 'A' <= c <= 'Z' then (c as int + 32) as char else c
  }

  function UpperChar(c: char): char {
    if 'a' <= c <= 'z' then (c as int - 32) as char else c
  }

  /** str.lower(), restricted to ASCII letters. */
  function Lower(s: string): (r: string)
    ensures |r| == |s|
    ensures forall i :: 0 <= i < |s| ==> r[i] == LowerChar(s[i])
  {
    seq(|s|, i requires 0 <= i < |s| => LowerChar(s[i]))
  }

  /** str.upper(), restricted to ASCII letters. */
  function Upper(s: string): (r: string)
    ensures |r| == |s|
    ensures forall i :: 0 <= i < |s| ==> r[i] == UpperChar(s[i])
  {
    seq(|s|, i requires 0 <= i < |s| => UpperChar(s[i]))
  }

  /** Lower-casing twice is lower-casing once, so a lowered query finds what the raw one finds. */
  lemma LowerIdempotent(s: string)
    ensures Lower(Lower(s)) == Lower(s)
  {
    forall i | 0 <= i < |s|
      ensures Lower(Lower(s))[i] == Lower(s)[i]
    {
      assert LowerChar(LowerChar(s[i])) == LowerChar(s[i]);
    }
  }

  /** The characters for which Python's str.isspace() holds. */
  predicate IsSpace(c: char) {
    c == ' ' || ('\t' <= c <= '\r') || ('\U{1C}' <= c <= '\U{1F}')
    || c == '\U{85}' || c == '\U{A0}' || c == '\U{1680}'
    || ('\U{2000}' <= c <= '\U{200A}') || c == '\U{2028}' || c == '\U{2029}'
    || c == '\U{202F}' || c == '\U{205F}' || c == '\U{3000}'
  }

  /** The index of the first non-whitespace character at or after `i`, or |s|. */
  function SkipSpace(s: string, i: nat): (n: nat)
    requires i <= |s|
    ensures i <= n <= |s|
    ensures n < |s| ==> !IsSpace(s[n])
    decreases |s| - i
  {
    if i < |s| && IsSpace(s[i]) then SkipSpace(s, i + 1) else i
  }

  /** The end of `s[lo..hi]` once its trailing whitespace is dropped. */
  function SkipSpaceBack(s: string, lo: nat, hi: nat): (n: nat)
    requires lo <= hi <= |s|
    ensures lo <= n <= hi
    ensures n > lo ==> !IsSpace(s[n - 1])
    decreases hi - lo
  {
    if hi > lo && IsSpace(s[hi - 1]) then SkipSpaceBack(s, lo, hi - 1) else hi
  }

  function StripStart(s: string): (n: nat)
    ensures n <= |s|
  {
    SkipSpace(s, 0)
  }

  function StripEnd(s: string): (n: nat)
    ensures StripStart(s) <= n <= |s|
  {
    SkipSpaceBack(s, StripStart(s), |s|)
  }

  /** str.strip(): `s` without its leading and trailing whitespace. */
  function Strip(s: string): (r: string)
    ensures |r| <= |s|
    ensures r == s[StripStart(s)..StripEnd(s)]
    ensures r != [] ==> !IsSpace(r[0]) && !IsSpace(r[|r| - 1])
  {
    s[StripStart(s)..StripEnd(s)]
  }

  /** What SkipSpace passes over is whitespace. */
  lemma {:induction false} SkipSpaceSkipsSpace(s: string, i: nat)
    requires i <= |s|
    ensures forall k :: i <= k < SkipSpace(s, i) ==> IsSpace(s[k])
    decreases |s| - i
  {
    if i < |s| && IsSpace(s[i]) {
      SkipSpaceSkipsSpace(s, i + 1);
    }
  }

  /** What SkipSpaceBack passes over is whitespace. */
  lemma {:induction false} SkipSpaceBackSkipsSpace(s: string, lo: nat, hi: nat)
    requires lo <= hi <= |s|
    ensures forall k :: SkipSpaceBack(s, lo, hi) <= k < hi ==> IsSpace(s[k])
    decreases hi - lo
  {
    if hi > lo && IsSpace(s[hi - 1]) {
      SkipSpaceBackSkipsSpace(s, lo, hi - 1);
    }
  }

  /** strip() removes whitespace only: everything outside the result is whitespace. */
  lemma StripRemovesOnlySpace(s: string)
    ensures forall k :: 0 <= k < StripStart(s) ==> IsSpace(s[k])
    ensures forall k :: StripEnd(s) <= k < |s| ==> IsSpace(s[k])
  {
    SkipSpaceSkipsSpace(s, 0);
    SkipSpaceBackSkipsSpace(s, StripStart(s), |s|);
  }

  /** strip() gives the empty string exactly for an all-whitespace string. */
  lemma StripEmpty(s: string)
    ensures (forall k :: 0 <= k < |s| ==> IsSpace(s[k])) <==> Strip(s) == []
  {
    StripRemovesOnlySpace(s);
    if Strip(s) == [] {
      assert StripStart(s) == StripEnd(s);
    } else {
      assert !IsSpace(s[StripStart(s)]);
    }
  }

  /** A string with no whitespace at either end is its own strip(). */
  lemma StripNoOp(s: string)
    requires s != [] ==> !IsSpace(s[0]) && !IsSpace(s[|s| - 1])
    ensures Strip(s) == s
  {
    assert StripStart(s) == 0;
    assert StripEnd(s) == |s|;
  }

  lemma StripIdempotent(s: string)
    ensures Strip(Strip(s)) == Strip(s)
  {
    StripNoOp(Strip(s));
  }

  /** Upper-casing changes no whitespace, so the upper-cased form of a stripped string is stripped. */
  lemma UpperKeepsStripped(s: string)
    requires Strip(s) == s
    ensures Strip(Upper(s)) == Upper(s)
  {
    if s != [] {
      assert !IsSpace(s[0]) && !IsSpace(s[|s| - 1]);
      assert Upper(s)[0] == UpperChar(s[0]);
    }
    StripNoOp(Upper(s));
  }

  /** str.isalnum() on one character, restricted to ASCII letters and digits. */
  predicate IsAlnum(c: char) {
    ('a' <= c <= 'z') || ('A' <= c <= 'Z') || ('0' <= c <= '9')
  }

  /** sum(c.isalnum() for c in s) */
  function AlnumCount(s: string): (n: nat)
    ensures n <= |s|
  {
    if s == [] then 0 else AlnumCount(s[..|s| - 1]) + (if IsAlnum(s[|s| - 1]) then 1 else 0)
  }

  /** str(n) for a non-negative integer. */
  function NatToString(n: nat): (r: string)
    ensures |r| >= 1
    ensures forall i :: 0 <= i < |r| ==> '0' <= r[i] <= '9'
  {
    var d := ['0' + (n % 10) as char];
    if n < 10 then d else NatToString(n / 10) + d
  }

  /** str(n) for any integer. */
  function IntToString(n: int): string {
    if n < 0 then "-" + NatToString(-n) else NatToString(n)
  }

  /** Python's `a < b` on str: lexicographic by code point, a proper prefix first. */
  predicate LexLess(a: string, b: string) {
    if a == [] then b != []
    else if b == [] then false
    else if a[0] != b[0] then a[0] < b[0]
    else LexLess(a[1..], b[1..])
  }

  lemma {:induction false} LexLessIrreflexive(a: string)
    ensures !LexLess(a, a)
  {
    if a != [] {
      LexLessIrreflexive(a[1..]);
    }
  }

  /** str.split(sep) for a one-character separator: always at least one part. */
  function Split(s: string, sep: char): (parts: seq<string>)
    ensures |parts| >= 1
    ensures forall i :: 0 <= i < |parts| ==> sep !in parts[i]
  {
    if s == [] then [""]
    else
      var rest := Split(s[1..], sep);
      if s[0] == sep then [""] + rest
      else [[s[0]] + rest[0]] + rest[1..]
  }

  /** sep.join(parts) */
  function Join(parts: seq<string>, sep: char): string {
    if parts == [] then ""
    else if |parts| == 1 then parts[0]
    else parts[0] + [sep] + Join(parts[1..], sep)
  }

  /** sep.join(parts) for a separator of any length. */
  function JoinWith(parts: seq<string>, sep: string): string {
    if parts == [] then ""
    else if |parts| == 1 then parts[0]
    else parts[0] + sep + JoinWith(parts[1..], sep)
  }

  /** Splitting and joining again on the same separator gives back the string. */
  lemma {:induction false} JoinSplit(s: string, sep: char)
    ensures Join(Split(s, sep), sep) == s
  {
    if s != [] {
      var rest := Split(s[1..], sep);
      JoinSplit(s[1..], sep);
      if s[0] == sep {
        assert ([""] + rest)[1..] == rest;
      } else {
        var parts := [[s[0]] + rest[0]] + rest[1..];
        if |rest| == 1 {
          assert Join(parts, sep) == [s[0]] + rest[0];
        } else {
          assert parts[1..] == rest[1..];
          assert Join(rest, sep) == rest[0] + [sep] + Join(rest[1..], sep);
          assert Join(parts, sep) == ([s[0]] + rest[0]) + [sep] + Join(rest[1..], sep);
          assert [s[0]] + s[1..] == s;
        }
      }
    }
  }

  /** A separator-free head splits off as exactly one part. */
  lemma {:induction false} SplitAfterHead(a: string, b: string, sep: char)
    requires sep !in a
    ensures Split(a + [sep] + b, sep) == [a] + Split(b, sep)
  {
    if a == [] {
      assert a + [sep] + b == [sep] + b;
      assert ([sep] + b)[1..] == b;
    } else {
      assert (a + [sep] + b)[1..] == a[1..] + [sep] + b;
      assert (a + [sep] + b)[0] == a[0];
      SplitAfterHead(a[1..], b, sep);
      assert [a[0]] + a[1..] == a;
    }
  }

  /** The non-empty strings of `s`, in order (the `if alias:` filters of the source). */
  function NonEmpty(s: seq<string>): (r: seq<string>)
    ensures |r| <= |s|
    ensures forall a :: a in r <==> a in s && a != ""
  {
    if s == [] then []
    else NonEmpty(s[..|s| - 1]) + (if s[|s| - 1] != "" then [s[|s| - 1]] else [])
  }

  /** One string is kept exactly when it is non-empty. */
  lemma NonEmptySingleton(x: string)
    ensures NonEmpty([x]) == if x != "" then [x] else []
  {
    assert [x][..0] == [];
  }

  /** The filter works element by element: it keeps order, and keeps every non-empty copy of a repeated string. */
  lemma {:induction false} NonEmptyAppend(a: seq<string>, b: seq<string>)
    ensures NonEmpty(a + b) == NonEmpty(a) + NonEmpty(b)
    decreases |b|
  {
    if b == [] {
      assert a + b == a;
    } else {
      var n := |b| - 1;
      assert (a + b)[..|a + b| - 1] == a + b[..n];
      assert (a + b)[|a + b| - 1] == b[n];
      NonEmptyAppend(a, b[..n]);
    }
  }

  /** A lower-case hexadecimal digit. */
  function HexDigit(d: nat): (c: char)
    requires d < 16
    ensures c != '\\'
  {
    if d < 10 then ('0' as int + d) as char else ('a' as int + d - 10) as char
  }

  /** Two lower-case hexadecimal digits of a code below 256. */
  function Hex2(n: nat): string
    requires n < 256
  {
    [HexDigit(n / 16), HexDigit(n % 16)]
  }

  /** The quote repr() puts around a string: double quotes only when it has a single quote and no double quote. */
  function ReprQuote(s: string): char {
    if '\'' in s && '"' !in s then '"' else '\''
  }

  /**
   * How repr() writes one character inside quotes `q`: the backslash and the quote are
   * escaped, tab, newline and carriage return get their letters, other ASCII control
   * characters and DEL become \xHH, and everything else is written as it is.
   */
  function ReprChar(c: char, q: char): string {
    if c == '\\' || c == q then ['\\', c]
    else if c == '\t' then "\\t"
    else if c == '\n' then "\\n"
    else if c == '\r' then "\\r"
    else if (c as int) < 32 || c as int == 127 then "\\x" + Hex2(c as int)
    else [c]
  }

  /** The characters of `s` as repr() writes them inside quotes `q`. */
  function ReprBody(s: string, q: char): string {
    if s == [] then [] else ReprChar(s[0], q) + ReprBody(s[1..], q)
  }

  /** repr() of a string: the body between the chosen quotes. */
  function Repr(s: string): (r: string)
    ensures |r| >= 2 && r[0] == r[|r| - 1] == ReprQuote(s)
    ensures r[0] == '"' <==> '\'' in s && '"' !in s
  {
    [ReprQuote(s)] + ReprBody(s, ReprQuote(s)) + [ReprQuote(s)]
  }

  /** Different hexadecimal digits are different characters. */
  lemma HexDigitInjective(a: nat, b: nat)
    requires a < 16 && b < 16 && HexDigit(a) == HexDigit(b)
    ensures a == b
  {
  }

  /** No character's written form is a proper prefix of another's, and different characters are written differently. */
  lemma ReprCharPrefixFree(a: char, b: char, q: char, x: string, y: string)
    requires q == '\'' || q == '"'
    requires ReprChar(a, q) + x == ReprChar(b, q) + y
    ensures a == b && x == y
  {
    var ea, eb := ReprChar(a, q), ReprChar(b, q);
    assert ea[0] == (ea + x)[0] == (eb + y)[0] == eb[0];
    if |ea| >= 2 {
      assert ea[1] == (ea + x)[1] == (eb + y)[1] == eb[1];
    }
    if |ea| == 4 {
      var ha, hb := Hex2(a as int), Hex2(b as int);
      assert ea[2] == (ea + x)[2] == (eb + y)[2] == eb[2];
      assert ea[3] == (ea + x)[3] == (eb + y)[3] == eb[3];
      HexDigitInjective((a as int) / 16, (b as int) / 16);
      HexDigitInjective((a as int) % 16, (b as int) % 16);
    }
    assert a == b;
    assert x == (ea + x)[|ea|..] == (eb + y)[|eb|..] == y;
  }

  /** Different strings have different bodies. */
  lemma {:induction false} ReprBodyInjective(s: string, t: string, q: char)
    requires q == '\'' || q == '"'
    requires ReprBody(s, q) == ReprBody(t, q)
    ensures s == t
  {
    if s != [] && t != [] {
      ReprCharPrefixFree(s[0], t[0], q, ReprBody(s[1..], q), ReprBody(t[1..], q));
      ReprBodyInjective(s[1..], t[1..], q);
      assert s == [s[0]] + s[1..];
      assert t == [t[0]] + t[1..];
    }
  }

  /** repr() loses nothing: different strings have different representations. */
  lemma ReprInjective(s: string, t: string)
    requires Repr(s) == Repr(t)
    ensures s == t
  {
    var q := ReprQuote(s);
    assert Repr(s)[0] == Repr(t)[0];
    var bs, bt := ReprBody(s, q), ReprBody(t, q);
    assert Repr(s) == [q] + bs + [q];
    assert Repr(t) == [q] + bt + [q];
    assert bs == Repr(s)[1..|Repr(s)| - 1];
    assert bt == Repr(t)[1..|Repr(t)| - 1];
    ReprBodyInjective(s, t, q);
  }

  /** A character repr() writes as it is inside quotes `q`. */
  predicate ReprPlainChar(c: char, q: char) {
    c != '\\' && c != q && 32 <= c as int && c as int != 127
  }

  /** A body of such characters is the string itself. */
  lemma {:induction false} ReprBodyPlain(s: string, q: char)
    requires forall i :: 0 <= i < |s| ==> ReprPlainChar(s[i], q)
    ensures ReprBody(s, q) == s
  {
    if s != [] {
      ReprBodyPlain(s[1..], q);
      assert s == [s[0]] + s[1..];
    }
  }

  /** A string without single quotes, backslashes or control characters is written between single quotes as it is. */
  lemma ReprPlain(s: string)
    requires forall i :: 0 <= i < |s| ==> ReprPlainChar(s[i], '\'')
    ensures Repr(s) == "'" + s + "'"
  {
    ReprBodyPlain(s, '\'');
    assert '\'' !in s;
  }

  /** A string with a single quote and no double quote goes between double quotes. */
  lemma ReprSingleQuoteExample()
    ensures Repr("it's") == "\"it's\""
  {
    assert "it's"[2] == '\'';
    ReprBodyPlain("it's", '"');
  }

  /** A newline is written as backslash and n. */
  lemma ReprNewlineExample()
    ensures Repr("a\nb") == "'a\\nb'"
  {
    assert ReprBody("a\nb", '\'') == "a" + ReprBody("\nb", '\'');
    assert ReprBody("\nb", '\'') == "\\n" + ReprBody("b", '\'');
    ReprBodyPlain("b", '\'');
  }
}
