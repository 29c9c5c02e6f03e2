/**
 * Python's text conversions that the relay uses: `str(int)`, `int(str)`, `sep.join(parts)`,
 * `s.split(c)`, and the UTF-16 length that Telegram measures message entities in.
 */
module Text {
  import opened Wrappers

  predicate IsDigit(c: char) {
    '0' <= c <= '9'
  }

  function DigitChar(d: nat): (c: char)
    requires d < 10
    ensures IsDigit(c)
  {
    ('0' as int + d) as char
  }

  function DigitValue(c: char): nat
    requires IsDigit(c)
  {
    c as int - '0' as int
  }

  predicate AllDigits(s: string) {
    forall k :: 0 <= k < |s| ==> IsDigit(s[k])
  }

  /** `str(n)` for a non-negative integer: its decimal digits, most significant first. */
  function NatToString(n: nat): string
    decreases n
  {
    if n < 10 then [DigitChar(n)] else NatToString(n / 10) + [DigitChar(n % 10)]
  }

  /** `str(i)`: a minus sign for negative numbers, then the digits of the magnitude. */
  function IntToString(i: int): string {
    if i < 0 then "-" + NatToString(-i) else NatToString(i)
  }

  /** The value of a run of decimal digits. */
  function DigitsValue(s: string): nat
    requires AllDigits(s)
    decreases |s|
  {
    if s == [] then 0 else DigitsValue(s[..|s| - 1]) * 10 + DigitValue(s[|s| - 1])
  }

  /**
   * The plain decimal form of an integer: an optional sign followed by at least one decimal
   * digit (leading zeros allowed). `PyIntOfStr` below is Python's full `int(s)`.
   */
  function ParseInt(s: string): Option<int> {
    if |s| > 0 && (s[0] == '-' || s[0] == '+') then
      if |s| > 1 && AllDigits(s[1..]) then
        var v: int := DigitsValue(s[1..]);
        Some(if s[0] == '-' then -v else v)
      else None
    else if |s| > 0 && AllDigits(s) then Some(DigitsValue(s))
    else None
  }

  lemma {:induction false} NatToStringDigits(n: nat)
    ensures |NatToString(n)| > 0 && AllDigits(NatToString(n))
    ensures DigitsValue(NatToString(n)) == n
    decreases n
  {
    var s := NatToString(n);
    if n >= 10 {
      NatToStringDigits(n / 10);
      assert s[..|s| - 1] == NatToString(n / 10);
      assert DigitValue(s[|s| - 1]) == n % 10;
    } else {
      assert DigitValue(s[0]) == n;
    }
  }

  /** `int(str(i)) == i`. */
  lemma ParseIntToString(i: int)
    ensures ParseInt(IntToString(i)) == Some(i)
  {
    var s := IntToString(i);
    if i < 0 {
      NatToStringDigits(-i);
      assert s[1..] == NatToString(-i);
    } else {
      NatToStringDigits(i);
    }
  }

  /** `str(a) == str(b)` exactly when `a == b`. */
  lemma IntToStringInjective(a: int, b: int)
    ensures IntToString(a) == IntToString(b) <==> a == b
  {
    if IntToString(a) == IntToString(b) {
      ParseIntToString(a);
      ParseIntToString(b);
    }
  }

  /** The decimal text of an integer holds only digits and possibly a leading minus sign. */
  lemma IntToStringChars(i: int)
    ensures |IntToString(i)| > 0
    ensures forall k :: 0 <= k < |IntToString(i)| ==> IsDigit(IntToString(i)[k]) || (k == 0 && IntToString(i)[k] == '-')
  {
    if i < 0 {
      var t := NatToString(-i);
      NatToStringAllDigits(-i);
      assert forall k :: 1 <= k < |t| + 1 ==> ("-" + t)[k] == t[k - 1];
    } else {
      NatToStringAllDigits(i);
    }
  }

  /** The decimal text of a natural number is a non-empty run of digits. */
  lemma {:induction false} NatToStringAllDigits(n: nat)
    ensures |NatToString(n)| > 0 && AllDigits(NatToString(n))
    decreases n
  {
    if n >= 10 {
      NatToStringAllDigits(n / 10);
    }
  }

  /** Every integer in 1000..9999 is written with exactly four digits. */
  lemma FourDigits(n: nat)
    requires 1000 <= n <= 9999
    ensures |NatToString(n)| == 4
  {
    assert |NatToString(n / 1000)| == 1;
    assert NatToString(n / 100) == NatToString(n / 1000) + [DigitChar((n / 100) % 10)];
    assert NatToString(n / 10) == NatToString(n / 100) + [DigitChar((n / 10) % 10)];
  }

  // ---------------------------------------------------------------- int(s) on text

  /** The characters Python's `int(s)` strips from both ends of its argument. */
  predicate IsPyWhitespace(c: char) {
    (9 <= c as int <= 13) || (0x1c <= c as int <= 0x20) || c as int == 0x85 || c as int == 0xa0 ||
    c as int == 0x1680 || (0x2000 <= c as int <= 0x200a) || c as int == 0x2028 || c as int == 0x2029 ||
    c as int == 0x202f || c as int == 0x205f || c as int == 0x3000
  }

  /** `s` without its leading whitespace. */
  function StripStart(s: string): (r: string)
    ensures |r| <= |s| && r == s[|s| - |r|..]
    ensures r != [] ==> !IsPyWhitespace(r[0])
    decreases |s|
  {
    if |s| > 0 && IsPyWhitespace(s[0]) then StripStart(s[1..]) else s
  }

  /** `s` without its trailing whitespace. */
  function StripEnd(s: string): (r: string)
    ensures |r| <= |s| && r == s[..|r|]
    ensures r != [] ==> !IsPyWhitespace(r[|r| - 1])
    decreases |s|
  {
    if |s| > 0 && IsPyWhitespace(s[|s| - 1]) then StripEnd(s[..|s| - 1]) else s
  }

  /** What `StripStart` removes is whitespace. */
  lemma {:induction false} StripStartRemovesWhitespace(s: string, j: int)
    requires 0 <= j < |s| - |StripStart(s)|
    ensures IsPyWhitespace(s[j])
    decreases |s|
  {
    if j > 0 {
      StripStartRemovesWhitespace(s[1..], j - 1);
    }
  }

  /** What `StripEnd` removes is whitespace. */
  lemma {:induction false} StripEndRemovesWhitespace(s: string, j: int)
    requires |StripEnd(s)| <= j < |s|
    ensures IsPyWhitespace(s[j])
    decreases |s|
  {
    if j < |s| - 1 {
      StripEndRemovesWhitespace(s[..|s| - 1], j);
    }
  }

  /**
   * The digits part Python's `int(s)` accepts in base 10: decimal digits, where single
   * underscores may separate two digits.
   */
  predicate UnderscoredDigits(b: string) {
    |b| > 0 && IsDigit(b[0]) && IsDigit(b[|b| - 1]) &&
    (forall k :: 0 <= k < |b| ==> IsDigit(b[k]) || b[k] == '_') &&
    (forall k :: 0 <= k < |b| - 1 && b[k] == '_' ==> b[k + 1] != '_')
  }

  /** `b` with its underscores dropped. */
  function RemoveUnderscores(b: string): (r: string)
    ensures (forall k :: 0 <= k < |b| ==> IsDigit(b[k]) || b[k] == '_') ==> AllDigits(r)
    ensures AllDigits(b) ==> r == b
    decreases |b|
  {
    if b == [] then []
    else RemoveUnderscores(b[..|b| - 1]) + (if b[|b| - 1] == '_' then [] else [b[|b| - 1]])
  }

  /**
   * What `int(s)` accepts once the whitespace is stripped: an optional sign, then decimal
   * digits, possibly grouped by single underscores.
   */
  function ReadSigned(t: string): (r: Option<int>)
    ensures r.Some? ==> exists k :: 0 <= k < |t| && IsDigit(t[k])
  {
    var signed := |t| > 0 && (t[0] == '-' || t[0] == '+');
    var body := if signed then t[1..] else t;
    if UnderscoredDigits(body) then
      var v: int := DigitsValue(RemoveUnderscores(body));
      assert body[0] in t;
      Some(if signed && t[0] == '-' then -v else v)
    else None
  }

  /**
   * Python's `int(s)` on text: surrounding whitespace is ignored; then an optional sign and
   * decimal digits, possibly grouped by single underscores; `None` where Python raises
   * ValueError.
   */
  function PyIntOfStr(s: string): (r: Option<int>) {
    ReadSigned(StripEnd(StripStart(s)))
  }

  /** On the plain decimal form, Python's `int(s)` and `ParseInt` agree. */
  lemma PyIntOfStrExtendsParseInt(s: string)
    ensures ParseInt(s).Some? ==> PyIntOfStr(s) == ParseInt(s)
  {
    if ParseInt(s).Some? {
      assert !IsPyWhitespace(s[0]);
      assert StripStart(s) == s;
      assert IsDigit(s[|s| - 1]);
      assert StripEnd(s) == s;
    }
  }

  predicate AllPyWhitespace(s: string) {
    forall k :: 0 <= k < |s| ==> IsPyWhitespace(s[k])
  }

  lemma {:induction false} StripStartPrefix(pre: string, u: string)
    requires AllPyWhitespace(pre) && u != [] && !IsPyWhitespace(u[0])
    ensures StripStart(pre + u) == u
    decreases |pre|
  {
    if pre == [] {
      assert pre + u == u;
    } else {
      assert (pre + u)[0] == pre[0];
      assert (pre + u)[1..] == pre[1..] + u;
      StripStartPrefix(pre[1..], u);
    }
  }

  lemma {:induction false} StripEndSuffix(v: string, post: string)
    requires AllPyWhitespace(post) && v != [] && !IsPyWhitespace(v[|v| - 1])
    ensures StripEnd(v + post) == v
    decreases |post|
  {
    if post == [] {
      assert v + post == v;
    } else {
      assert (v + post)[|v + post| - 1] == post[|post| - 1];
      assert (v + post)[..|v + post| - 1] == v + post[..|post| - 1];
      StripEndSuffix(v, post[..|post| - 1]);
    }
  }

  /** Whitespace around the text does not change what `int(s)` reads. */
  lemma PyIntOfStrIgnoresWhitespace(pre: string, t: string, post: string)
    requires AllPyWhitespace(pre) && AllPyWhitespace(post)
    requires t != [] && !IsPyWhitespace(t[0]) && !IsPyWhitespace(t[|t| - 1])
    ensures PyIntOfStr(pre + t + post) == PyIntOfStr(t)
  {
    var u := t + post;
    assert pre + t + post == pre + u;
    StripStartPrefix(pre, u);
    StripEndSuffix(t, post);
    assert StripEnd(StripStart(pre + t + post)) == t;
    assert StripStart(t) == t;
    assert StripEnd(t) == t;
  }

  /** `int(s)` reads back `str(i)` with any whitespace around it. */
  lemma PyIntOfStrPadded(i: int, pre: string, post: string)
    requires AllPyWhitespace(pre) && AllPyWhitespace(post)
    ensures PyIntOfStr(pre + IntToString(i) + post) == Some(i)
  {
    var t := IntToString(i);
    IntToStringChars(i);
    assert IsDigit(t[0]) || t[0] == '-';
    assert IsDigit(t[|t| - 1]) || t[|t| - 1] == '-';
    PyIntOfStrIgnoresWhitespace(pre, t, post);
    ParseIntToString(i);
    PyIntOfStrExtendsParseInt(t);
  }

  /** `RemoveUnderscores` distributes over concatenation. */
  lemma {:induction false} RemoveUnderscoresAppend(x: string, y: string)
    ensures RemoveUnderscores(x + y) == RemoveUnderscores(x) + RemoveUnderscores(y)
    decreases |y|
  {
    if y == [] {
      assert x + y == x;
    } else {
      assert (x + y)[..|x + y| - 1] == x + y[..|y| - 1];
      assert (x + y)[|x + y| - 1] == y[|y| - 1];
      RemoveUnderscoresAppend(x, y[..|y| - 1]);
    }
  }

  /** Text that neither starts nor ends with whitespace is not stripped. */
  lemma StripNothing(t: string)
    requires t != [] && !IsPyWhitespace(t[0]) && !IsPyWhitespace(t[|t| - 1])
    ensures StripEnd(StripStart(t)) == t
  {
    assert StripStart(t) == t;
  }

  /** Grouped digits without a sign read as their digits. */
  lemma ReadUnsigned(t: string)
    requires UnderscoredDigits(t)
    ensures ReadSigned(t) == Some(DigitsValue(RemoveUnderscores(t)))
  {
    assert IsDigit(t[0]);
  }

  /** One underscore between two runs of digits is a valid grouping. */
  lemma UnderscoredJoin(a: string, b: string)
    requires |a| > 0 && |b| > 0 && AllDigits(a) && AllDigits(b)
    ensures UnderscoredDigits(a + "_" + b)
  {
    var s := a + "_" + b;
    assert s[0] == a[0] && s[|s| - 1] == b[|b| - 1];
    forall k | 0 <= k < |s| ensures IsDigit(s[k]) || s[k] == '_' {
      if k < |a| {
        assert s[k] == a[k];
      } else if k > |a| {
        assert s[k] == b[k - |a| - 1];
      }
    }
    forall k | 0 <= k < |s| - 1 && s[k] == '_' ensures s[k + 1] != '_' {
      if k == |a| {
        assert s[k + 1] == b[0];
      }
    }
  }

  /** Dropping the underscore between two runs of digits writes them together. */
  lemma RemoveUnderscoresJoin(a: string, b: string)
    requires AllDigits(a) && AllDigits(b)
    ensures RemoveUnderscores(a + "_" + b) == a + b
  {
    var u: string := ['_'];
    assert a + "_" + b == (a + u) + b;
    RemoveUnderscoresAppend(a + u, b);
    RemoveUnderscoresAppend(a, u);
    assert u[..0] == [];
  }

  /** Two runs of digits joined by one underscore read as the digits written together. */
  lemma PyIntOfStrGrouped(a: string, b: string)
    requires |a| > 0 && |b| > 0 && AllDigits(a) && AllDigits(b)
    ensures PyIntOfStr(a + "_" + b) == Some(DigitsValue(a + b))
  {
    var s := a + "_" + b;
    UnderscoredJoin(a, b);
    StripNothing(s);
    ReadUnsigned(s);
    RemoveUnderscoresJoin(a, b);
  }

  /** Stripped text with two underscores in a row is refused. */
  lemma ReadSignedDoubledUnderscore(t: string, q: int)
    requires 0 <= q < |t| - 1 && t[q] == '_' && t[q + 1] == '_'
    ensures ReadSigned(t) == None
  {
    if |t| > 0 && (t[0] == '-' || t[0] == '+') {
      assert t[1..][q - 1] == '_' && t[1..][q] == '_';
      assert !UnderscoredDigits(t[1..]);
    } else {
      assert !UnderscoredDigits(t);
    }
  }

  /** Stripping keeps a pair of underscores, shifted by what was stripped from the front. */
  lemma StripKeepsUnderscores(s: string, k: int)
    requires 0 <= k < |s| - 1 && s[k] == '_' && s[k + 1] == '_'
    ensures var p := |s| - |StripStart(s)|; var t := StripEnd(StripStart(s));
      p <= k && k + 1 - p < |t| && t[k - p] == '_' && t[k + 1 - p] == '_'
  {
    var r := StripStart(s);
    var p := |s| - |r|;
    if p > k {
      StripStartRemovesWhitespace(s, k);
    }
    assert r[k - p] == '_' && r[k + 1 - p] == '_';
    var t := StripEnd(r);
    if k + 1 - p >= |t| {
      StripEndRemovesWhitespace(r, k + 1 - p);
    }
  }

  /** Text with two underscores in a row is refused, wherever they stand. */
  lemma PyIntOfStrDoubledUnderscore(s: string, k: int)
    requires 0 <= k < |s| - 1 && s[k] == '_' && s[k + 1] == '_'
    ensures PyIntOfStr(s) == None
  {
    StripKeepsUnderscores(s, k);
    ReadSignedDoubledUnderscore(StripEnd(StripStart(s)), k - (|s| - |StripStart(s)|));
  }

  /** Blank text is refused. */
  lemma PyIntOfStrBlank(s: string)
    requires AllPyWhitespace(s)
    ensures PyIntOfStr(s) == None
  {
  }

  /** A sign with nothing but whitespace around it is refused. */
  lemma PyIntOfStrLoneSign(pre: string, sign: char, post: string)
    requires AllPyWhitespace(pre) && AllPyWhitespace(post) && (sign == '-' || sign == '+')
    ensures PyIntOfStr(pre + [sign] + post) == None
  {
    PyIntOfStrIgnoresWhitespace(pre, [sign], post);
    assert StripEnd(StripStart([sign])) == [sign];
    assert [sign][1..] == [];
  }

  /** Python's `sep.join(parts)`. */
  function Join(sep: string, parts: seq<string>): string
    decreases |parts|
  {
    if |parts| == 0 then ""
    else if |parts| == 1 then parts[0]
    else Join(sep, parts[..|parts| - 1]) + sep + parts[|parts| - 1]
  }

  /** Python's `s.split(c)` for a single-character separator: never empty. */
  function Split(s: string, c: char): (r: seq<string>)
    ensures |r| > 0
    decreases |s|
  {
    if s == [] then [""]
    else
      var init := Split(s[..|s| - 1], c);
      if s[|s| - 1] == c then init + [""]
      else init[..|init| - 1] + [init[|init| - 1] + [s[|s| - 1]]]
  }

  lemma {:induction false} SplitAppendPiece(s: string, c: char, q: string)
    requires c !in q
    ensures Split(s + [c] + q, c) == Split(s, c) + [q]
    decreases |q|
  {
    if q == [] {
      assert (s + [c] + q)[..|s + [c] + q| - 1] == s;
    } else {
      var q' := q[..|q| - 1];
      SplitAppendPiece(s, c, q');
      assert (s + [c] + q)[..|s + [c] + q| - 1] == s + [c] + q';
      assert q' + [q[|q| - 1]] == q;
    }
  }

  lemma {:induction false} SplitNoSeparator(q: string, c: char)
    requires c !in q
    ensures Split(q, c) == [q]
    decreases |q|
  {
    if q != [] {
      SplitNoSeparator(q[..|q| - 1], c);
      assert q[..|q| - 1] + [q[|q| - 1]] == q;
    }
  }

  /** Splitting a join on its one-character separator gives the parts back, when no part holds it. */
  lemma {:induction false} SplitJoin(parts: seq<string>, c: char)
    requires |parts| > 0
    requires forall k :: 0 <= k < |parts| ==> c !in parts[k]
    ensures Split(Join([c], parts), c) == parts
    decreases |parts|
  {
    if |parts| == 1 {
      SplitNoSeparator(parts[0], c);
    } else {
      var init := parts[..|parts| - 1];
      SplitJoin(init, c);
      SplitAppendPiece(Join([c], init), c, parts[|parts| - 1]);
      assert init + [parts[|parts| - 1]] == parts;
    }
  }

  /** The UTF-16 code units of one Unicode scalar value. */
  function Utf16Units(ch: char): seq<int> {
    var v := ch as int;
    if v < 0x1_0000 then [v]
    else [0xD800 + (v - 0x1_0000) / 0x400, 0xDC00 + (v - 0x1_0000) % 0x400]
  }

  /** The UTF-16 encoding of a string, as code units. */
  function Utf16Encode(s: string): seq<int>
    decreases |s|
  {
    if s == [] then [] else Utf16Encode(s[..|s| - 1]) + Utf16Units(s[|s| - 1])
  }

  /**
   * The length of a string in UTF-16 code units: one per character of the Basic Multilingual
   * Plane, two per character beyond it.
   */
  function Utf16Len(s: string): nat
    decreases |s|
  {
    if s == [] then 0 else Utf16Len(s[..|s| - 1]) + (if s[|s| - 1] as int < 0x1_0000 then 1 else 2)
  }

  lemma {:induction false} Utf16LenIsEncodedLength(s: string)
    ensures |Utf16Encode(s)| == Utf16Len(s)
    decreases |s|
  {
    if s != [] { Utf16LenIsEncodedLength(s[..|s| - 1]); }
  }

  lemma {:induction false} Utf16EncodeConcat(a: string, b: string)
    ensures Utf16Encode(a + b) == Utf16Encode(a) + Utf16Encode(b)
    decreases |b|
  {
    if b != [] {
      var b' := b[..|b| - 1];
      Utf16EncodeConcat(a, b');
      assert (a + b)[..|a + b| - 1] == a + b';
    } else {
      assert a + b == a;
    }
  }

  lemma Utf16LenConcat(a: string, b: string)
    ensures Utf16Len(a + b) == Utf16Len(a) + Utf16Len(b)
  {
    Utf16EncodeConcat(a, b);
    Utf16LenIsEncodedLength(a);
    Utf16LenIsEncodedLength(b);
    Utf16LenIsEncodedLength(a + b);
  }

  /** A string of characters from the Basic Multilingual Plane has one code unit per character. */
  lemma {:induction false} Utf16LenBmp(s: string)
    requires forall k :: 0 <= k < |s| ==> s[k] as int < 0x1_0000
    ensures Utf16Len(s) == |s|
    decreases |s|
  {
    if s != [] { Utf16LenBmp(s[..|s| - 1]); }
  }
}
