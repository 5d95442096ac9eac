/** The JavaScript string built-ins the handlers rely on: `includes`, `replace` with a
    string pattern, `trim`, `split` on one character, `parseInt` without a radix, and the
    regular-expression classes `\s` and `\w`. Strings are sequences of Unicode scalar
    values. */
module JsStrings {
  import opened JsValues

  /** `\s` (and the White_Space plus LineTerminator set that `trim` and `parseInt` skip):
      TAB, LF, VT, FF, CR, SPACE, NBSP, OGHAM SPACE MARK, U+2000 to U+200A, LINE and
      PARAGRAPH SEPARATOR, NARROW NBSP, MEDIUM MATHEMATICAL SPACE, IDEOGRAPHIC SPACE and
      the byte order mark. */
  predicate IsJsSpace(c: char) {
    || c == '\t' || c == '\n' || c == '\U{000B}' || c == '\U{000C}' || c == '\r'
    || c == ' ' || c == '\U{00A0}' || c == '\U{1680}'
    || ('\U{2000}' <= c <= '\U{200A}')
    || c == '\U{2028}' || c == '\U{2029}' || c == '\U{202F}' || c == '\U{205F}'
    || c == '\U{3000}' || c == '\U{FEFF}'
  }

  /** `\w` outside unicode mode, also under the `i` flag: ASCII letters, digits and `_`. */
  predicate IsWordChar(c: char) {
    ('a' <= c <= 'z') || ('A' <= c <= 'Z') || ('0' <= c <= '9') || c == '_'
  }

  predicate IsDecimalDigit(c: char) {
    '0' <= c <= '9'
  }

  predicate StartsWith(s: string, prefix: string) {
    |prefix| <= |s| && s[..|prefix|] == prefix
  }

  predicate EndsWith(s: string, suffix: string) {
    |suffix| <= |s| && s[|s| - |suffix|..] == suffix
  }

  /** `pat` occurs in `s` starting at index `i`. */
  predicate OccursAt(s: string, pat: string, i: int) {
    0 <= i && i + |pat| <= |s| && s[i..i + |pat|] == pat
  }

  lemma OccursAtTail(s: string, pat: string)
    requires |s| > 0
    ensures forall i :: 0 <= i ==> (OccursAt(s[1..], pat, i) <==> OccursAt(s, pat, i + 1))
    ensures !OccursAt(s, pat, 0) ==> forall i :: OccursAt(s, pat, i) ==> OccursAt(s[1..], pat, i - 1)
  {
    forall i | 0 <= i
      ensures OccursAt(s[1..], pat, i) <==> OccursAt(s, pat, i + 1)
    {
      if i + |pat| <= |s[1..]| {
        assert s[1..][i..i + |pat|] == s[i + 1..i + 1 + |pat|];
      }
    }
  }

  /** `s.indexOf(pat)`: the first index at which `pat` occurs, if any. */
  function IndexOf(s: string, pat: string): (r: Option<nat>)
    ensures r.Some? ==> OccursAt(s, pat, r.value)
    ensures r.Some? ==> forall j :: 0 <= j < r.value ==> !OccursAt(s, pat, j)
    ensures r.None? ==> forall j :: !OccursAt(s, pat, j)
    decreases |s|
  {
    if |s| < |pat| then None
    else if s[..|pat|] == pat then Some(0)
    else
      var rest := IndexOf(s[1..], pat);
      OccursAtTail(s, pat);
      if rest.None? then None else Some(rest.value + 1)
  }

  /** `s.includes(pat)`. */
  predicate Contains(s: string, pat: string) {
    IndexOf(s, pat).Some?
  }

  /** A string that includes `outer` includes every piece of it. */
  lemma ContainsPiece(s: string, outer: string, inner: string, offset: nat)
    requires OccursAt(outer, inner, offset)
    ensures Contains(s, outer) ==> Contains(s, inner)
  {
    if Contains(s, outer) {
      var i := IndexOf(s, outer).value;
      assert s[i + offset..i + offset + |inner|] == outer[offset..offset + |inner|];
      assert OccursAt(s, inner, i + offset);
    }
  }

  /** `s.replace(pat, rep)` with a string pattern: only the first occurrence is replaced. */
  function ReplaceFirst(s: string, pat: string, rep: string): (r: string)
    ensures !Contains(s, pat) ==> r == s
    ensures Contains(s, pat) ==>
      var i := IndexOf(s, pat).value;
      r == s[..i] + rep + s[i + |pat|..]
  {
    match IndexOf(s, pat)
    case None => s
    case Some(i) => s[..i] + rep + s[i + |pat|..]
  }

  /** Removing a suffix whose first character does not occur before it leaves exactly
      the text in front of it. */
  lemma ReplaceSuffix(body: string, suffix: string)
    requires suffix != []
    requires forall i :: 0 <= i < |body| ==> body[i] != suffix[0]
    ensures Contains(body + suffix, suffix)
    ensures ReplaceFirst(body + suffix, suffix, "") == body
  {
    var q := body + suffix;
    assert OccursAt(q, suffix, |body|) by {
      assert q[|body|..|body| + |suffix|] == suffix;
    }
    var i := IndexOf(q, suffix).value;
    assert q[i..i + |suffix|][0] == q[i];
    assert i == |body|;
    assert q[..i] == body && q[i + |suffix|..] == [];
  }

  /** `s.trimStart()`: the leading white space and line terminators removed. */
  function TrimStart(s: string): (r: string)
    ensures |r| <= |s| && r == s[|s| - |r|..]
    ensures forall i :: 0 <= i < |s| - |r| ==> IsJsSpace(s[i])
    ensures r == [] || !IsJsSpace(r[0])
    decreases |s|
  {
    if s != [] && IsJsSpace(s[0]) then TrimStart(s[1..]) else s
  }

  /** The trailing white space and line terminators removed. */
  function TrimEnd(s: string): (r: string)
    ensures |r| <= |s| && r == s[..|r|]
    ensures forall i :: |r| <= i < |s| ==> IsJsSpace(s[i])
    ensures r == [] || !IsJsSpace(r[|r| - 1])
    decreases |s|
  {
    if s != [] && IsJsSpace(s[|s| - 1]) then TrimEnd(s[..|s| - 1]) else s
  }

  /** `s.trim()`. */
  function Trim(s: string): string {
    TrimEnd(TrimStart(s))
  }

  /** Trimming a string followed by white space removes exactly that white space when
      the string itself has none at either end. */
  lemma {:induction false} TrimPadded(s: string, pad: string)
    requires s == [] || (!IsJsSpace(s[0]) && !IsJsSpace(s[|s| - 1]))
    requires forall i :: 0 <= i < |pad| ==> IsJsSpace(pad[i])
    ensures s != [] ==> Trim(s + pad) == s
  {
    if s != [] {
      assert TrimStart(s + pad) == s + pad;
      TrimEndPadded(s, pad);
    }
  }

  lemma {:induction false} TrimEndPadded(s: string, pad: string)
    requires s != [] && !IsJsSpace(s[|s| - 1])
    requires forall i :: 0 <= i < |pad| ==> IsJsSpace(pad[i])
    ensures TrimEnd(s + pad) == s
    decreases |pad|
  {
    if pad == [] {
      assert s + pad == s;
    } else {
      var shorter := pad[..|pad| - 1];
      assert (s + pad)[..|s + pad| - 1] == s + shorter;
      TrimEndPadded(s, shorter);
    }
  }

  /** `s.split(sep)` for a one-character separator; `"".split(sep)` is `[""]`. */
  function Split(s: string, sep: char): (parts: seq<string>)
    ensures |parts| >= 1
    ensures forall k, i :: 0 <= k < |parts| && 0 <= i < |parts[k]| ==> parts[k][i] != sep
    decreases |s|
  {
    if s == [] then [[]]
    else
      var rest := Split(s[1..], sep);
      if s[0] == sep then [[]] + rest
      else [[s[0]] + rest[0]] + rest[1..]
  }

  /** Splitting a piece without the separator, then the separator and more text, yields
      the piece followed by the parts of the rest. */
  lemma {:induction false} SplitFirst(a: string, sep: char, b: string)
    requires forall i :: 0 <= i < |a| ==> a[i] != sep
    ensures Split(a + [sep] + b, sep) == [a] + Split(b, sep)
    decreases |a|
  {
    if a == [] {
      assert a + [sep] + b == [sep] + b;
      assert ([sep] + b)[1..] == b;
    } else {
      SplitFirst(a[1..], sep, b);
      assert (a + [sep] + b)[1..] == a[1..] + [sep] + b;
      assert [a[0]] + a[1..] == a;
    }
  }

  /** A piece without the separator splits to itself alone. */
  lemma {:induction false} SplitNone(a: string, sep: char)
    requires forall i :: 0 <= i < |a| ==> a[i] != sep
    ensures Split(a, sep) == [a]
    decreases |a|
  {
    if a != [] {
      SplitNone(a[1..], sep);
      assert [a[0]] + a[1..] == a;
    }
  }

  // ---------------------------------------------------------------------------
  // parseInt(s) with no radix argument

  predicate IsRadixDigit(c: char, radix: nat) {
    if radix == 16 then IsDecimalDigit(c) || ('a' <= c <= 'f') || ('A' <= c <= 'F')
    else IsDecimalDigit(c)
  }

  function DigitValue(c: char): nat {
    if IsDecimalDigit(c) then c as nat - '0' as nat
    else if 'a' <= c <= 'f' then c as nat - 'a' as nat + 10
    else if 'A' <= c <= 'F' then c as nat - 'A' as nat + 10
    else 0
  }

  /** The longest prefix of `s` made of digits of the radix. */
  function DigitRun(s: string, radix: nat): (r: string)
    ensures |r| <= |s| && r == s[..|r|]
    ensures forall i :: 0 <= i < |r| ==> IsRadixDigit(r[i], radix)
    ensures |r| < |s| ==> !IsRadixDigit(s[|r|], radix)
    decreases |s|
  {
    if s != [] && IsRadixDigit(s[0], radix) then [s[0]] + DigitRun(s[1..], radix) else []
  }

  /** The value of a digit string, most significant digit first. */
  function DigitsValue(ds: string, radix: nat): nat
    decreases |ds|
  {
    if ds == [] then 0
    else DigitsValue(ds[..|ds| - 1], radix) * radix + DigitValue(ds[|ds| - 1])
  }

  predicate AllDecimal(s: string) {
    forall i :: 0 <= i < |s| ==> IsDecimalDigit(s[i])
  }

  /** `parseInt(s)`: skip leading white space, take an optional sign, switch to base 16
      after a `0x` or `0X` prefix, read the longest run of digits; with no digit at all
      the result is NaN (None). -0 is read as 0. */
  function ParseInt(s: string): Option<int> {
    var t := TrimStart(s);
    var negative := |t| > 0 && t[0] == '-';
    var u := if |t| > 0 && (t[0] == '+' || t[0] == '-') then t[1..] else t;
    var hex := |u| >= 2 && u[0] == '0' && (u[1] == 'x' || u[1] == 'X');
    var radix := if hex then 16 else 10;
    var z := DigitRun(if hex then u[2..] else u, radix);
    var magnitude: int := DigitsValue(z, radix);
    if z == [] then None else Some(if negative then -magnitude else magnitude)
  }

  lemma {:induction false} DigitRunAll(s: string, radix: nat)
    requires forall i :: 0 <= i < |s| ==> IsRadixDigit(s[i], radix)
    ensures DigitRun(s, radix) == s
    decreases |s|
  {
    if s != [] {
      DigitRunAll(s[1..], radix);
      assert [s[0]] + s[1..] == s;
    }
  }

  /** A non-empty string of decimal digits parses to its decimal value, leading zeros
      and all. */
  lemma ParseIntDecimal(d: string)
    requires d != [] && AllDecimal(d)
    ensures ParseInt(d) == Some(DigitsValue(d, 10))
  {
    assert IsDecimalDigit(d[0]);
    assert !IsJsSpace(d[0]);
    assert TrimStart(d) == d;
    assert d[0] != '+' && d[0] != '-';
    assert |d| >= 2 ==> IsDecimalDigit(d[1]);
    DigitRunAll(d, 10);
  }

  /** parseInt stops at the first character after the digits that is not a digit. */
  lemma ParseIntDecimalPrefix(d: string, tail: string)
    requires d != [] && AllDecimal(d)
    requires tail != [] ==> !IsDecimalDigit(tail[0]) && tail[0] != 'x' && tail[0] != 'X'
    ensures ParseInt(d + tail) == Some(DigitsValue(d, 10))
  {
    var s := d + tail;
    assert s[0] == d[0] && IsDecimalDigit(s[0]);
    assert !IsJsSpace(s[0]);
    assert TrimStart(s) == s;
    assert |s| >= 2 ==> s[1] == (if |d| >= 2 then d[1] else tail[0]);
    var r := DigitRun(s, 10);
    assert r == s[..|d|] == d;
  }

  /** Decimal rendering of a natural number, as `String(n)` prints it. */
  function DecimalString(n: nat): (r: string)
    ensures r != [] && AllDecimal(r)
    decreases n
  {
    var last := ['0' + (n % 10) as char];
    if n < 10 then last else DecimalString(n / 10) + last
  }

  lemma {:induction false} DecimalStringValue(n: nat)
    ensures DigitsValue(DecimalString(n), 10) == n
    decreases n
  {
    var r := DecimalString(n);
    assert DigitValue(r[|r| - 1]) == n % 10;
    if n >= 10 {
      DecimalStringValue(n / 10);
      assert r[..|r| - 1] == DecimalString(n / 10);
    }
  }

  /** parseInt reads back what String(n) prints. */
  lemma ParseIntDecimalString(n: nat)
    ensures ParseInt(DecimalString(n)) == Some(n)
  {
    ParseIntDecimal(DecimalString(n));
    DecimalStringValue(n);
  }
}
