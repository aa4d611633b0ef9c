/** The string primitives the source leans on: `str.split`, `int()`, `str()` of
    an integer, zero-padded `strftime` fields and case-insensitive search. */
module Text {
  import opened Values

  predicate IsDigit(c: char) { '0' <= c <= '9' }

  predicate AllDigits(s: string) { forall i :: 0 <= i < |s| ==> IsDigit(s[i]) }

  function DigitChar(d: nat): (c: char)
    requires d < 10
    ensures IsDigit(c)
  {
    ['0', '1', '2', '3', '4', '5', '6', '7', '8', '9'][d]
  }

  function DigitValue(c: char): (d: nat)
    requires IsDigit(c)
    ensures d < 10 && DigitChar(d) == c
  {
    (c as int - '0' as int)
  }

  /** Decimal digits of `n` without leading zeros ("0" for zero), as `str(n)`. */
  function DigitsOf(n: nat): (s: string)
    ensures |s| > 0 && AllDigits(s)
  {
    if n < 10 then [DigitChar(n)] else DigitsOf(n / 10) + [DigitChar(n % 10)]
  }

  /** The number a non-empty digit string denotes, leading zeros allowed. */
  function ValueOf(s: string): nat
    requires AllDigits(s)
  {
    if s == [] then 0 else ValueOf(s[..|s| - 1]) * 10 + DigitValue(s[|s| - 1])
  }

  /** Python's `str(i)` for an integer. */
  function IntToString(i: int): (s: string)
    ensures |s| > 0
    ensures i >= 0 ==> AllDigits(s)
  {
    if i < 0 then "-" + DigitsOf(-i) else DigitsOf(i)
  }

  /** The characters `str.strip()` removes: space, tab, newline, vertical
      tab, form feed and carriage return. */
  predicate IsSpace(c: char) {
    c == ' ' || c == '\t' || c == '\n' || c == '\r' || c as int == 11 || c as int == 12
  }

  /** `s.strip()`: the text without its leading and trailing white space. */
  function Strip(s: string): (r: string)
    ensures r == [] || (!IsSpace(r[0]) && !IsSpace(r[|r| - 1]))
    ensures |s| > 0 && !IsSpace(s[0]) && !IsSpace(s[|s| - 1]) ==> r == s
    decreases |s|
  {
    if |s| > 0 && IsSpace(s[0]) then Strip(s[1..])
    else if |s| > 0 && IsSpace(s[|s| - 1]) then Strip(s[..|s| - 1])
    else s
  }

  /** Stripping removes white space only. */
  lemma {:induction false} StripKeeps(s: string)
    ensures forall c :: c in s && !IsSpace(c) ==> c in Strip(s)
    ensures forall c :: c in Strip(s) ==> c in s
    decreases |s|
  {
    if |s| > 0 && IsSpace(s[0]) {
      StripKeeps(s[1..]);
      assert forall c :: c in s && !IsSpace(c) ==> c in s[1..] by {
        forall c | c in s && !IsSpace(c) ensures c in s[1..] {
          var k :| 0 <= k < |s| && s[k] == c;
          assert s[k] == s[1..][k - 1];
        }
      }
    } else if |s| > 0 && IsSpace(s[|s| - 1]) {
      StripKeeps(s[..|s| - 1]);
      assert forall c :: c in s && !IsSpace(c) ==> c in s[..|s| - 1] by {
        forall c | c in s && !IsSpace(c) ensures c in s[..|s| - 1] {
          var k :| 0 <= k < |s| && s[k] == c;
          assert s[k] == s[..|s| - 1][k];
        }
      }
    }
  }

  /** White space around a text does not change what it strips to. */
  lemma {:induction false} StripSurrounded(s: string, c: char)
    requires IsSpace(c)
    ensures Strip([c] + s) == Strip(s) && Strip(s + [c]) == Strip(s)
    decreases |s|
  {
    assert ([c] + s)[1..] == s;
    if |s| == 0 {
    } else if IsSpace(s[0]) {
      StripSurrounded(s[1..], c);
      assert (s + [c])[1..] == s[1..] + [c];
    } else {
      assert (s + [c])[..|s + [c]| - 1] == s;
    }
  }

  /** Python's `int(s)` on text: surrounding white space is ignored, then an
      optional sign and at least one digit; anything else raises
      ValueError. */
  function ParseInt(s: string): (r: Result<int>)
    ensures r.Ok? ==> |Strip(s)| > 0
    ensures AllDigits(s) && |s| > 0 ==> r == Ok(ValueOf(s))
  {
    ParseSigned(Strip(s))
  }

  /** `int()` ignores white space around the digits, so `int(' 2014')`
      is 2014. */
  lemma ParseIntSpaced(s: string, c: char)
    requires IsSpace(c)
    ensures ParseInt([c] + s) == ParseInt(s) && ParseInt(s + [c]) == ParseInt(s)
  {
    StripSurrounded(s, c);
  }

  /** An optional sign and at least one digit. */
  function ParseSigned(t: string): (r: Result<int>)
    ensures r.Ok? ==> |t| > 0
    ensures AllDigits(t) && |t| > 0 ==> r == Ok(ValueOf(t))
  {
    if |t| > 0 && (t[0] == '-' || t[0] == '+') then
      var u := t[1..];
      if |u| > 0 && AllDigits(u) then
        var v: int := ValueOf(u);
        Ok(if t[0] == '-' then -v else v)
      else Err(ValueError)
    else if |t| > 0 && AllDigits(t) then Ok(ValueOf(t))
    else Err(ValueError)
  }

  lemma {:induction false} ValueOfDigitsOf(n: nat)
    ensures ValueOf(DigitsOf(n)) == n
  {
    if n >= 10 {
      var s := DigitsOf(n);
      assert s[..|s| - 1] == DigitsOf(n / 10);
      ValueOfDigitsOf(n / 10);
    }
  }

  function Zeros(k: nat): (s: string)
    ensures |s| == k && AllDigits(s)
    ensures forall i :: 0 <= i < k ==> s[i] == '0'
  {
    if k == 0 then "" else "0" + Zeros(k - 1)
  }

  lemma {:induction false} ValueOfLeadingZeros(k: nat, t: string)
    requires AllDigits(t)
    ensures AllDigits(Zeros(k) + t) && ValueOf(Zeros(k) + t) == ValueOf(t)
  {
    if t != [] {
      var s := Zeros(k) + t;
      assert s[..|s| - 1] == Zeros(k) + t[..|t| - 1];
      ValueOfLeadingZeros(k, t[..|t| - 1]);
    } else {
      assert Zeros(k) + t == Zeros(k);
      ZerosValue(k);
    }
  }

  lemma {:induction false} ZerosValue(k: nat)
    ensures ValueOf(Zeros(k)) == 0
  {
    if k > 0 {
      assert Zeros(k)[..k - 1] == Zeros(k - 1);
      ZerosValue(k - 1);
    }
  }

  /** A `%0<w>d` field: `n` in decimal, left-padded with zeros to `w` digits. */
  function Pad(n: nat, w: nat): (s: string)
    ensures AllDigits(s) && |s| >= w
    ensures |DigitsOf(n)| <= w ==> |s| == w
  {
    var d := DigitsOf(n);
    if |d| >= w then d else Zeros(w - |d|) + d
  }

  /** `int()` reads a padded field back as the number it was made from. */
  lemma PadRoundTrip(n: nat, w: nat)
    ensures ParseInt(Pad(n, w)) == Ok(n)
  {
    var d, s := DigitsOf(n), Pad(n, w);
    assert ParseInt(s) == Ok(ValueOf(s));
    ValueOfDigitsOf(n);
    if |d| < w {
      ValueOfLeadingZeros(w - |d|, d);
    }
  }

  lemma IntToStringRoundTrip(i: int)
    ensures ParseInt(IntToString(i)) == Ok(i)
  {
    var n := if i < 0 then -i else i;
    var d := DigitsOf(n);
    ValueOfDigitsOf(n);
    assert IsDigit(d[0]) && IsDigit(d[|d| - 1]);
    if i < 0 {
      var s := "-" + d;
      assert s[|s| - 1] == d[|d| - 1] && s[1..] == d;
      assert Strip(s) == s;
      assert ParseSigned(s) == Ok(i);
    }
  }

  function Pow10(n: nat): (r: nat)
    ensures r >= 1
  {
    if n == 0 then 1 else 10 * Pow10(n - 1)
  }

  /** A number below `10^w` has at most `w` digits. */
  lemma {:induction false} DigitsLength(n: nat, w: nat)
    requires w >= 1 && n < Pow10(w)
    ensures |DigitsOf(n)| <= w
  {
    if n >= 10 {
      DigitsLength(n / 10, w - 1);
    }
  }

  /** The value of the digits after a decimal point. */
  function Fraction(digits: string): (x: real)
    requires AllDigits(digits)
    ensures x >= 0.0
  {
    ValueOf(digits) as real / Pow10(|digits|) as real
  }

  /** The number written with `whole` before the point and `frac` after it. */
  function Decimal(whole: string, frac: string): real
    requires AllDigits(whole) && AllDigits(frac)
  {
    ValueOf(whole) as real + Fraction(frac)
  }

  /** The unsigned part of a decimal literal: digits, optionally a point and
      more digits, at least one digit in all. */
  function UnsignedDecimal(t: string): (r: Result<real>)
    ensures r.Ok? ==> r.value >= 0.0
  {
    match Find(t, '.')
    case None => if |t| > 0 && AllDigits(t) then Ok(ValueOf(t) as real) else Err(ValueError)
    case Some(k) =>
      var whole, frac := t[..k], t[k + 1..];
      if AllDigits(whole) && AllDigits(frac) && |whole| + |frac| > 0 then
        Ok(Decimal(whole, frac))
      else Err(ValueError)
  }

  /** Python's `float(s)` on plain decimal text (surrounding white space, an
      optional sign, digits and at most one decimal point); any other text
      raises ValueError. */
  function ParseDecimal(s: string): (r: Result<real>)
    ensures r.Ok? ==> |Strip(s)| > 0
  {
    var t := Strip(s);
    if |t| > 0 && (t[0] == '-' || t[0] == '+') then
      var x :- UnsignedDecimal(t[1..]);
      Ok(if t[0] == '-' then -x else x)
    else if |t| > 0 then UnsignedDecimal(t)
    else Err(ValueError)
  }

  /** Digits, one point and digits read as the whole part plus the fraction. */
  lemma UnsignedAt(t: string, k: nat)
    requires k < |t| && t[k] == '.' && |t| > 1
    requires AllDigits(t[..k]) && AllDigits(t[k + 1..])
    ensures UnsignedDecimal(t) == Ok(Decimal(t[..k], t[k + 1..]))
  {
    forall j | 0 <= j < k
      ensures t[j] != '.'
    {
      assert IsDigit(t[..k][j]);
    }
  }

  lemma UnsignedPointed(w: string, f: string)
    requires AllDigits(w) && AllDigits(f) && |w| + |f| > 0
    ensures UnsignedDecimal(w + "." + f) == Ok(Decimal(w, f))
  {
    var t := w + "." + f;
    assert t[..|w|] == w && t[|w| + 1..] == f;
    UnsignedAt(t, |w|);
  }

  /** Digits without a point read as their value. */
  lemma UnsignedWhole(w: string)
    requires AllDigits(w) && |w| > 0
    ensures UnsignedDecimal(w) == Ok(ValueOf(w) as real)
  {
    forall j | 0 <= j < |w|
      ensures w[j] != '.'
    {
      assert IsDigit(w[j]);
    }
  }

  /** A sign in front of an unsigned literal negates it or leaves it. */
  lemma SignedDecimal(u: string, x: real)
    requires |u| > 0 && u[0] != '-' && u[0] != '+' && !IsSpace(u[0]) && !IsSpace(u[|u| - 1])
    requires UnsignedDecimal(u) == Ok(x)
    ensures ParseDecimal(u) == Ok(x)
    ensures ParseDecimal("+" + u) == Ok(x)
    ensures ParseDecimal("-" + u).Ok? && ParseDecimal("-" + u).value == -x
  {
    var plus, minus := "+" + u, "-" + u;
    assert plus[|plus| - 1] == u[|u| - 1] && plus[1..] == u;
    assert minus[|minus| - 1] == u[|u| - 1] && minus[1..] == u;
  }

  /** `float()` reads a signed decimal literal as its value: `float('-12.5')`
      is -12.5, `float('3.')` is 3.0 and `float('+.25')` is 0.25. */
  lemma ParseDecimalPointed(w: string, f: string)
    requires AllDigits(w) && AllDigits(f) && |w| + |f| > 0
    ensures ParseDecimal(w + "." + f) == Ok(Decimal(w, f))
    ensures ParseDecimal("+" + w + "." + f) == Ok(Decimal(w, f))
    ensures ParseDecimal("-" + w + "." + f).Ok? && ParseDecimal("-" + w + "." + f).value == -Decimal(w, f)
  {
    var u := w + "." + f;
    assert "+" + w + "." + f == "+" + u && "-" + w + "." + f == "-" + u;
    assert u[0] == '.' || IsDigit(u[0]) by {
      if |w| > 0 { assert u[0] == w[0]; }
    }
    assert u[|u| - 1] == '.' || IsDigit(u[|u| - 1]) by {
      if |f| > 0 { assert u[|u| - 1] == f[|f| - 1]; }
    }
    UnsignedPointed(w, f);
    SignedDecimal(u, Decimal(w, f));
  }

  /** `float()` reads a signed whole number as its value. */
  lemma ParseDecimalWhole(w: string)
    requires AllDigits(w) && |w| > 0
    ensures ParseDecimal(w) == Ok(ValueOf(w) as real)
    ensures ParseDecimal("+" + w) == Ok(ValueOf(w) as real)
    ensures ParseDecimal("-" + w).Ok? && ParseDecimal("-" + w).value == -(ValueOf(w) as real)
  {
    assert IsDigit(w[0]) && IsDigit(w[|w| - 1]);
    UnsignedWhole(w);
    SignedDecimal(w, ValueOf(w) as real);
  }

  /** `float(v)` on a directive value: numbers pass through, text is read as a
      decimal literal, and None raises TypeError. */
  function Float(v: Value): (r: Result<real>)
    ensures v.VNum? ==> r == Ok(v.num)
    ensures v.VNone? ==> r == Err(TypeError)
    ensures v.VStr? ==> r == ParseDecimal(v.str)
  {
    match v
    case VNone => Err(TypeError)
    case VNum(x) => Ok(x)
    case VStr(s) => ParseDecimal(s)
  }

  lemma NoSeparatorInInt(i: int, c: char)
    requires !IsDigit(c) && c != '-'
    ensures c !in IntToString(i)
  {
    if i < 0 {
      assert IntToString(i) == "-" + DigitsOf(-i);
      assert c !in DigitsOf(-i);
    }
  }

  /** Index of the first occurrence of `c` in `s` at or after `from`. */
  function FindFrom(s: string, c: char, from: nat): (r: Option<nat>)
    requires from <= |s|
    ensures r.Some? ==> from <= r.value < |s| && s[r.value] == c
    ensures r.Some? ==> forall j :: from <= j < r.value ==> s[j] != c
    ensures r.None? ==> forall j :: from <= j < |s| ==> s[j] != c
    decreases |s| - from
  {
    if from == |s| then None
    else if s[from] == c then Some(from)
    else FindFrom(s, c, from + 1)
  }

  /** Index of the first occurrence of `c` in `s`, as `s.find(c)`. */
  function Find(s: string, c: char): (r: Option<nat>)
    ensures r.Some? ==> r.value < |s| && s[r.value] == c
    ensures r.Some? ==> forall j :: 0 <= j < r.value ==> s[j] != c
    ensures r.None? ==> forall j :: 0 <= j < |s| ==> s[j] != c
  {
    FindFrom(s, c, 0)
  }

  /** Python's `s.split(c)` for a one-character separator: the pieces between
      the occurrences of `c`, left to right. */
  function Split(s: string, c: char): (r: seq<string>)
    ensures |r| > 0
    decreases |s|
  {
    match Find(s, c)
    case None => [s]
    case Some(k) => [s[..k]] + Split(s[k + 1..], c)
  }

  function Join(parts: seq<string>, c: char): string
    requires |parts| > 0
  {
    if |parts| == 1 then parts[0] else parts[0] + [c] + Join(parts[1..], c)
  }

  /** Joining the pieces with the separator gives back the text. */
  lemma {:induction false} SplitJoin(s: string, c: char)
    ensures Join(Split(s, c), c) == s
    decreases |s|
  {
    var f := Find(s, c);
    if f.Some? {
      var k := f.value;
      var rest := s[k + 1..];
      var parts := Split(s, c);
      assert parts == [s[..k]] + Split(rest, c);
      SplitJoin(rest, c);
      assert parts[1..] == Split(rest, c);
      assert s == s[..k] + [c] + rest;
    }
  }

  /** A piece free of the separator ends at the separator. */
  lemma {:induction false} SplitAt(a: string, c: char, b: string)
    requires c !in a
    ensures Split(a + [c] + b, c) == [a] + Split(b, c)
  {
    var s := a + [c] + b;
    FindFirst(a, c, b);
    assert s[|a| + 1..] == b;
    assert s[..|a|] == a;
  }

  lemma FindFirst(a: string, c: char, b: string)
    requires c !in a
    ensures Find(a + [c] + b, c) == Some(|a|)
  {
    var s := a + [c] + b;
    assert s[|a|] == c;
    assert forall j :: 0 <= j < |a| ==> s[j] == a[j];
  }

  lemma SplitNone(a: string, c: char)
    requires c !in a
    ensures Split(a, c) == [a]
  {
  }

  /** Splitting the join of separator-free pieces gives back the pieces. */
  lemma {:induction false} JoinSplit(parts: seq<string>, c: char)
    requires |parts| > 0
    requires forall i :: 0 <= i < |parts| ==> c !in parts[i]
    ensures Split(Join(parts, c), c) == parts
  {
    if |parts| == 1 {
      SplitNone(parts[0], c);
    } else {
      JoinSplit(parts[1..], c);
      SplitAt(parts[0], c, Join(parts[1..], c));
    }
  }

  /** The last piece is the text after the last separator. */
  lemma {:induction false} SplitLast(a: string, c: char, b: string)
    requires c !in b
    ensures |Split(a + [c] + b, c)| >= 2
    ensures Split(a + [c] + b, c)[|Split(a + [c] + b, c)| - 1] == b
    decreases |a|
  {
    match Find(a, c)
    case None =>
      SplitAt(a, c, b);
      SplitNone(b, c);
    case Some(k) =>
      var a1, a2 := a[..k], a[k + 1..];
      assert a == a1 + [c] + a2;
      assert a + [c] + b == a1 + [c] + (a2 + [c] + b);
      SplitAt(a1, c, a2 + [c] + b);
      SplitLast(a2, c, b);
  }

  /** `p` occurs in `s` at position `k`. */
  predicate OccursAt(s: string, p: string, k: nat) {
    k + |p| <= |s| && s[k..k + |p|] == p
  }

  /** Index of the first occurrence of the text `p` in `s` at or after `from`. */
  function FindSeqFrom(s: string, p: string, from: nat): (r: Option<nat>)
    requires |p| > 0
    ensures r.Some? ==> from <= r.value && OccursAt(s, p, r.value)
    ensures r.Some? ==> forall j :: from <= j < r.value ==> !OccursAt(s, p, j)
    ensures r.None? ==> forall j :: from <= j ==> !OccursAt(s, p, j)
    decreases |s| - from
  {
    if from + |p| > |s| then None
    else if s[from..from + |p|] == p then Some(from)
    else FindSeqFrom(s, p, from + 1)
  }

  /** Python's `s.split(p)` for a separator of one or more characters. */
  function SplitOn(s: string, p: string): (r: seq<string>)
    requires |p| > 0
    ensures |r| > 0
    decreases |s|
  {
    match FindSeqFrom(s, p, 0)
    case None => [s]
    case Some(k) => [s[..k]] + SplitOn(s[k + |p|..], p)
  }

  /** Text free of the separator's first character does not contain it. */
  lemma SplitOnNone(a: string, p: string)
    requires |p| > 0 && p[0] !in a
    ensures SplitOn(a, p) == [a]
  {
    forall j | 0 <= j < |a| ensures !OccursAt(a, p, j) {
      assert a[j] != p[0];
    }
  }

  /** A piece free of the separator's first character ends at the separator. */
  lemma SplitOnAt(a: string, p: string, b: string)
    requires |p| > 0 && p[0] !in a
    ensures SplitOn(a + p + b, p) == [a] + SplitOn(b, p)
  {
    var s := a + p + b;
    assert OccursAt(s, p, |a|) by {
      assert s[|a|..|a| + |p|] == p;
    }
    forall j | 0 <= j < |a| ensures !OccursAt(s, p, j) {
      assert s[j] == a[j] != p[0];
    }
    assert FindSeqFrom(s, p, 0) == Some(|a|);
    assert s[..|a|] == a;
    assert s[|a| + |p|..] == b;
  }

  /** ASCII lower-casing, the folding `re.I` does on byte strings. */
  function Lower(c: char): (r: char)
    ensures 'A' <= c <= 'Z' ==> r as int == c as int + 32
    ensures !('A' <= c <= 'Z') ==> r == c
  {
    if 'A' <= c <= 'Z' then (c as int + 32) as char else c
  }

  predicate MatchesAt(p: string, t: string, k: nat)
    requires k + |p| <= |t|
  {
    forall j :: 0 <= j < |p| ==> Lower(t[k + j]) == Lower(p[j])
  }

  /** `re.search(p, t, re.I)` for a pattern without metacharacters: the first
      position where `t` matches `p` ignoring ASCII case. */
  function FindCI(p: string, t: string): (r: Option<nat>)
    ensures r.Some? ==> r.value + |p| <= |t| && MatchesAt(p, t, r.value)
    decreases |t|
  {
    if |t| < |p| then None
    else if MatchesAt(p, t, 0) then Some(0)
    else
      match FindCI(p, t[1..])
      case None => None
      case Some(k) => Some(k + 1)
  }

  /** The position found is the first match, and no position matches when
      none is found. */
  lemma {:induction false} FindCIFirst(p: string, t: string)
    ensures FindCI(p, t).Some? ==> forall k :: 0 <= k < FindCI(p, t).value ==> !MatchesAt(p, t, k)
    ensures FindCI(p, t).None? ==> forall k :: 0 <= k <= |t| - |p| ==> !MatchesAt(p, t, k)
    decreases |t|
  {
    if |t| >= |p| && !MatchesAt(p, t, 0) {
      FindCIFirst(p, t[1..]);
      assert forall k :: 1 <= k <= |t| - |p| ==> (MatchesAt(p, t, k) <==> MatchesAt(p, t[1..], k - 1));
    }
  }
}
