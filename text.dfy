/** String helpers the source borrows from Python: str(n), int(s), f"{n:04d}",
    str.split(sep), str.upper(), str.strip() and case-insensitive containment.
    Strings are sequences of characters; only ASCII letters are case-folded. */
module Text {
  import opened Wrappers

  predicate IsDigit(c: char) { '0' <= c <= '9' }

  /** A non-empty run of decimal digits. */
  predicate IsDigits(s: string) { |s| > 0 && forall i :: 0 <= i < |s| ==> IsDigit(s[i]) }

  function DigitChar(d: nat): (c: char)
    requires d < 10
    ensures IsDigit(c)
  {
    ['0', '1', '2', '3', '4', '5', '6', '7', '8', '9'][d]
  }

  function DigitValue(c: char): (d: nat)
    requires IsDigit(c)
    ensures d < 10
  {
    (c as int) - ('0' as int)
  }

  lemma DigitCharValue(d: nat)
    requires d < 10
    ensures DigitValue(DigitChar(d)) == d
  {
  }

  /** Python's str(n) for a non-negative integer: shortest decimal form. */
  function DigitString(n: nat): (s: string)
    ensures IsDigits(s)
    ensures |s| > 1 ==> s[0] != '0'
    decreases n
  {
    if n < 10 then [DigitChar(n)] else DigitString(n / 10) + [DigitChar(n % 10)]
  }

  /** The number a run of digits denotes, read most significant digit first. */
  function DigitsValue(s: string): nat
    requires forall i :: 0 <= i < |s| ==> IsDigit(s[i])
    decreases |s|
  {
    if s == [] then 0 else DigitsValue(s[..|s| - 1]) * 10 + DigitValue(s[|s| - 1])
  }

  lemma {:induction false} DigitStringValue(n: nat)
    ensures DigitsValue(DigitString(n)) == n
    decreases n
  {
    var s := DigitString(n);
    if n < 10 {
      assert s[..0] == [];
      DigitCharValue(n);
    } else {
      DigitStringValue(n / 10);
      assert s[..|s| - 1] == DigitString(n / 10);
      DigitCharValue(n % 10);
    }
  }

  /** Leading zeros do not change the value of a run of digits. */
  lemma {:induction false} LeadingZeroValue(s: string)
    requires forall i :: 0 <= i < |s| ==> IsDigit(s[i])
    ensures DigitsValue(['0'] + s) == DigitsValue(s)
    decreases |s|
  {
    var z := ['0'] + s;
    if s == [] {
      assert z[..0] == [];
    } else {
      assert z[..|z| - 1] == ['0'] + s[..|s| - 1];
      LeadingZeroValue(s[..|s| - 1]);
    }
  }

  function Zeros(k: nat): (z: string)
    ensures |z| == k && forall i :: 0 <= i < k ==> z[i] == '0'
  {
    if k == 0 then [] else ['0'] + Zeros(k - 1)
  }

  lemma {:induction false} ZerosValue(k: nat, s: string)
    requires forall i :: 0 <= i < |s| ==> IsDigit(s[i])
    ensures DigitsValue(Zeros(k) + s) == DigitsValue(s)
  {
    if k > 0 {
      var t := Zeros(k - 1) + s;
      ZerosValue(k - 1, s);
      assert Zeros(k) == ['0'] + Zeros(k - 1);
      assert Zeros(k) + s == ['0'] + t;
      assert forall i :: 0 <= i < |t| ==> IsDigit(t[i]) by {
        forall i | 0 <= i < |t| ensures IsDigit(t[i]) {
          if i < k - 1 { assert t[i] == '0'; } else { assert t[i] == s[i - (k - 1)]; }
        }
      }
      LeadingZeroValue(t);
      assert DigitsValue(Zeros(k) + s) == DigitsValue(['0'] + t);
    } else {
      assert Zeros(k) + s == s;
    }
  }

  /** Left-pads a digit run with zeros to at least `width` characters. */
  function PadDigits(s: string, width: nat): (r: string)
    ensures |r| == if |s| < width then width else |s|
    ensures r[|r| - |s|..] == s
  {
    if |s| < width then Zeros(width - |s|) + s else s
  }

  /** Python's f"{x:04d}": at least four characters, zero padding after a minus sign. */
  function Pad4(x: int): (r: string)
    ensures |r| >= 4
  {
    if x >= 0 then PadDigits(DigitString(x), 4) else "-" + PadDigits(DigitString(-x), 3)
  }

  /** Python's int(s) for an optionally signed decimal literal; None where int() raises
      ValueError. Surrounding whitespace and digit-group underscores are not accepted. */
  function ParseInt(s: string): (r: Option<int>)
    ensures r.Some? ==> IsDigits(s) || (|s| > 1 && (s[0] == '-' || s[0] == '+') && IsDigits(s[1..]))
    ensures r.Some? && r.value < 0 ==> s[0] == '-'
  {
    if |s| > 0 && (s[0] == '-' || s[0] == '+') then
      (if IsDigits(s[1..]) then
         var v: int := DigitsValue(s[1..]);
         Some(if s[0] == '-' then -v else v)
       else None)
    else if IsDigits(s) then Some(DigitsValue(s))
    else None
  }

  /** f"{n:02d}" for a non-negative n. */
  function Pad2(n: nat): string
  {
    PadDigits(DigitString(n), 2)
  }

  predicate AllDigits(s: string) { forall i :: 0 <= i < |s| ==> IsDigit(s[i]) }

  function Pow10(k: nat): (p: nat)
    ensures p >= 1
  {
    if k == 0 then 1 else 10 * Pow10(k - 1)
  }

  /** The position of the first occurrence of c, or |s| if there is none. */
  function IndexOf(s: string, c: char): (i: nat)
    ensures i <= |s| && c !in s[..i]
    ensures i < |s| ==> s[i] == c
    ensures i == |s| <==> c !in s
    decreases |s|
  {
    if |s| == 0 then 0 else if s[0] == c then 0 else
      var j := 1 + IndexOf(s[1..], c);
      assert s[..j] == [s[0]] + s[1..][..j - 1];
      j
  }

  /** An unsigned decimal literal: digits, optionally a point and more digits,
      with at least one digit in all. */
  function ParseUnsignedDecimal(s: string): Option<real>
  {
    var i := IndexOf(s, '.');
    var whole := s[..i];
    var frac := if i < |s| then s[i + 1..] else "";
    if |whole| + |frac| > 0 && AllDigits(whole) && AllDigits(frac) then Some(DecimalValue(whole, frac))
    else None
  }

  /** The value of `whole.frac`. */
  function DecimalValue(whole: string, frac: string): real
    requires AllDigits(whole) && AllDigits(frac)
  {
    DigitsValue(whole) as real + (DigitsValue(frac) as real) / (Pow10(|frac|) as real)
  }

  /** Decimal(s) on plain decimal text with an optional sign; None where it raises. */
  function ParseDecimal(s: string): (r: Option<real>)
    ensures r.Some? ==> |s| > 0
  {
    if |s| > 0 && (s[0] == '-' || s[0] == '+') then
      match ParseUnsignedDecimal(s[1..])
      case None => None
      case Some(v) => Some(if s[0] == '-' then -v else v)
    else
      ParseUnsignedDecimal(s)
  }

  lemma IndexAfterDigits(w: string, c: string)
    requires AllDigits(w)
    ensures IndexOf(w + "." + c, '.') == |w|
  {
    var s := w + "." + c;
    assert s[|w|] == '.';
    assert forall j :: 0 <= j < |w| ==> s[j] == w[j];
  }

  /** Digits, a point and digits read as the whole part plus the fraction. */
  lemma ParsePointed(w: string, c: string)
    requires AllDigits(w) && AllDigits(c) && |w| > 0
    ensures ParseDecimal(w + "." + c) == Some(DecimalValue(w, c))
  {
    var s := w + "." + c;
    assert s[0] == w[0] && IsDigit(s[0]);
    assert ParseDecimal(s) == ParseUnsignedDecimal(s);
    IndexAfterDigits(w, c);
    assert s[..|w|] == w;
    assert s[|w| + 1..] == c;
  }

  /** `f"{n:02d}"` below 100 is two digits worth n. */
  lemma Pad2Facts(n: nat)
    requires n < 100
    ensures |Pad2(n)| == 2 && AllDigits(Pad2(n)) && DigitsValue(Pad2(n)) == n
  {
    DigitStringLength(n);
    PadDigitsValue(DigitString(n), 2);
    DigitStringValue(n);
  }

  lemma Pad4Facts(n: nat)
    requires n < 10000
    ensures |Pad4(n)| == 4 && AllDigits(Pad4(n)) && DigitsValue(Pad4(n)) == n
  {
    DigitStringLength(n);
    PadDigitsValue(DigitString(n), 4);
    DigitStringValue(n);
  }

  /** Two fraction digits count hundredths. */
  lemma HundredthsValue(w: string, c: string)
    requires AllDigits(w) && AllDigits(c) && |c| == 2
    ensures DecimalValue(w, c) == DigitsValue(w) as real + (DigitsValue(c) as real) / 100.0
  {
    assert Pow10(2) == 100;
  }

  lemma ParseDecimalOf(w: string, c: string, v: real)
    requires AllDigits(w) && AllDigits(c) && |w| > 0 && DecimalValue(w, c) == v
    ensures ParseDecimal(w + "." + c) == Some(v)
  {
    ParsePointed(w, c);
  }

  /** The numeral of a whole part and two padded cent digits denote whole + cents/100. */
  lemma CentsValue(whole: nat, cents: nat)
    requires cents < 100
    ensures AllDigits(DigitString(whole)) && AllDigits(Pad2(cents))
    ensures DecimalValue(DigitString(whole), Pad2(cents)) == whole as real + (cents as real) / 100.0
  {
    var w, c := DigitString(whole), Pad2(cents);
    Pad2Facts(cents);
    DigitStringValue(whole);
    HundredthsValue(w, c);
  }

  /** Money written with two decimal places reads back as its exact value. */
  lemma ParseDecimalCents(whole: nat, cents: nat)
    requires cents < 100
    ensures ParseDecimal(DigitString(whole) + "." + Pad2(cents)) ==
      Some(whole as real + (cents as real) / 100.0)
  {
    CentsValue(whole, cents);
    ParseDecimalOf(DigitString(whole), Pad2(cents), whole as real + (cents as real) / 100.0);
  }

  /** Zero padding keeps a run of digits a run of digits with the same value. */
  lemma PadDigitsValue(s: string, width: nat)
    requires IsDigits(s)
    ensures IsDigits(PadDigits(s, width))
    ensures DigitsValue(PadDigits(s, width)) == DigitsValue(s)
  {
    var r := PadDigits(s, width);
    if |s| < width {
      ZerosValue(width - |s|, s);
      forall i | 0 <= i < |r| ensures IsDigit(r[i]) {
        if i < width - |s| { assert r[i] == '0'; } else { assert r[i] == s[i - (width - |s|)]; }
      }
    }
  }

  /** int() of a run of digits is the number the digits denote. */
  lemma ParseIntDigits(s: string)
    requires IsDigits(s)
    ensures ParseInt(s) == Some(DigitsValue(s))
  {
    assert IsDigit(s[0]);
  }

  /** int() of a minus sign and a run of digits is the negated number. */
  lemma ParseIntNegative(s: string)
    requires IsDigits(s)
    ensures ParseInt("-" + s) == Some(-(DigitsValue(s) as int))
  {
    assert ("-" + s)[1..] == s;
  }

  /** Padding is undone by parsing: int(f"{x:04d}") == x. */
  lemma Pad4RoundTrip(x: int)
    ensures ParseInt(Pad4(x)) == Some(x)
  {
    if x >= 0 {
      DigitStringValue(x);
      PadDigitsValue(DigitString(x), 4);
      ParseIntDigits(Pad4(x));
    } else {
      DigitStringValue(-x);
      PadDigitsValue(DigitString(-x), 3);
      ParseIntNegative(PadDigits(DigitString(-x), 3));
    }
  }

  lemma Pad4Width(x: nat)
    ensures IsDigits(Pad4(x))
    ensures x < 10000 <==> |Pad4(x)| == 4
    ensures x >= 10000 ==> Pad4(x) == DigitString(x)
  {
    var d := DigitString(x);
    DigitStringLength(x);
    PadDigitsValue(d, 4);
    assert Pad4(x) == PadDigits(d, 4);
    assert |PadDigits(d, 4)| == if |d| < 4 then 4 else |d|;
  }

  lemma {:induction false} DigitStringLength(n: nat)
    ensures n < 10 ==> |DigitString(n)| == 1
    ensures n < 100 ==> |DigitString(n)| <= 2
    ensures n < 1000 ==> |DigitString(n)| <= 3
    ensures n < 10000 ==> |DigitString(n)| <= 4
    ensures n >= 10 ==> |DigitString(n)| >= 2
    ensures n >= 100 ==> |DigitString(n)| >= 3
    ensures n >= 1000 ==> |DigitString(n)| >= 4
    ensures n >= 10000 ==> |DigitString(n)| >= 5
    decreases n
  {
    if n >= 10 {
      DigitStringLength(n / 10);
      assert |DigitString(n)| == |DigitString(n / 10)| + 1;
    }
  }

  // ---------------------------------------------------------------------------
  // str.split(sep) and " ".join

  /** None of the pieces holds the separator. */
  predicate NoSeparator(pieces: seq<string>, sep: char)
  {
    forall i :: 0 <= i < |pieces| ==> sep !in pieces[i]
  }

  /** Python's s.split(sep) for a one-character separator: at least one piece,
      and no piece holds the separator. */
  function Split(s: string, sep: char): (r: seq<string>)
    ensures |r| >= 1
    ensures NoSeparator(r, sep)
    decreases |s|
  {
    if |s| == 0 then [""]
    else
      var rest := Split(s[1..], sep);
      if s[0] == sep then [""] + rest else [[s[0]] + rest[0]] + rest[1..]
  }

  /** Text without the separator is a single piece. */
  lemma {:induction false} SplitNoSep(s: string, sep: char)
    requires sep !in s
    ensures Split(s, sep) == [s]
    decreases |s|
  {
    if |s| > 0 {
      SplitNoSep(s[1..], sep);
      assert [s[0]] + s[1..] == s;
    }
  }

  /** Splitting at a separator splits the two sides independently. */
  lemma {:induction false} SplitConcat(a: string, sep: char, b: string)
    ensures Split(a + [sep] + b, sep) == Split(a, sep) + Split(b, sep)
    decreases |a|
  {
    var s := a + [sep] + b;
    if |a| == 0 {
      assert s[1..] == b;
    } else {
      assert s[1..] == a[1..] + [sep] + b;
      SplitConcat(a[1..], sep, b);
    }
  }

  /** The last piece of s.split(sep), as in `s.split(sep)[-1]`. */
  function LastPiece(s: string, sep: char): string
  {
    var parts := Split(s, sep);
    parts[|parts| - 1]
  }

  /** Three separator-free pieces joined by the separator split back into exactly those pieces. */
  lemma SplitThree(a: string, b: string, c: string, sep: char)
    requires sep !in a && sep !in b && sep !in c
    ensures Split(a + [sep] + b + [sep] + c, sep) == [a, b, c]
    ensures LastPiece(a + [sep] + b + [sep] + c, sep) == c
  {
    SplitNoSep(a, sep);
    SplitNoSep(b, sep);
    SplitNoSep(c, sep);
    SplitConcat(b, sep, c);
    assert a + [sep] + b + [sep] + c == a + [sep] + (b + [sep] + c);
    SplitConcat(a, sep, b + [sep] + c);
  }

  // ---------------------------------------------------------------------------
  // Case folding, whitespace, containment

  function UpperChar(c: char): char { if 'a' <= c <= 'z' then (c as int - 32) as char else c }

  function LowerChar(c: char): char { if 'A' <= c <= 'Z' then (c as int + 32) as char else c }

  /** str.upper() on ASCII letters; every other character is kept. */
  function Upper(s: string): (r: string)
    ensures |r| == |s|
    ensures forall i :: 0 <= i < |s| ==> r[i] == UpperChar(s[i])
  {
    seq(|s|, i requires 0 <= i < |s| => UpperChar(s[i]))
  }

  /** str.lower() on ASCII letters; every other character is kept. */
  function Lower(s: string): (r: string)
    ensures |r| == |s|
    ensures forall i :: 0 <= i < |s| ==> r[i] == LowerChar(s[i])
  {
    seq(|s|, i requires 0 <= i < |s| => LowerChar(s[i]))
  }

  /** Upper-casing introduces no separator that was not there: a character
      that is not an upper-case letter stays absent. */
  lemma UpperKeepsSeparatorOut(s: string, c: char)
    requires c !in s && !('A' <= c <= 'Z')
    ensures c !in Upper(s)
  {
  }

  /** The characters Python's str.strip() removes (ASCII whitespace). */
  predicate IsSpace(c: char) { c == ' ' || c == '\t' || c == '\n' || c == '\r' || c == '\U{000B}' || c == '\U{000C}' }

  function TrimLeft(s: string): (r: string)
    ensures |r| <= |s| && r == s[|s| - |r|..]
    ensures r != [] ==> !IsSpace(r[0])
    ensures forall i :: 0 <= i < |s| - |r| ==> IsSpace(s[i])
    decreases |s|
  {
    if |s| > 0 && IsSpace(s[0]) then TrimLeft(s[1..]) else s
  }

  function TrimRight(s: string): (r: string)
    ensures |r| <= |s| && r == s[..|r|]
    ensures r != [] ==> !IsSpace(r[|r| - 1])
    ensures forall i :: |r| <= i < |s| ==> IsSpace(s[i])
    decreases |s|
  {
    if |s| > 0 && IsSpace(s[|s| - 1]) then TrimRight(s[..|s| - 1]) else s
  }

  /** str.strip(): drop leading and trailing whitespace. */
  function Strip(s: string): string
  {
    TrimRight(TrimLeft(s))
  }

  /** A stripped text is empty exactly when the input is all whitespace, and a
      non-empty one begins and ends with a non-space character of the input. */
  lemma StripBlank(s: string)
    ensures Strip(s) == [] <==> forall i :: 0 <= i < |s| ==> IsSpace(s[i])
    ensures Strip(s) != [] ==> !IsSpace(Strip(s)[0]) && !IsSpace(Strip(s)[|Strip(s)| - 1])
  {
    var l := TrimLeft(s);
    if Strip(s) == [] {
      assert l == [];
    } else {
      assert Strip(s)[0] == l[0];
    }
  }

  /** A non-empty stripped text neither starts nor ends with whitespace. */
  lemma StripEnds(s: string)
    requires Strip(s) != []
    ensures !IsSpace(Strip(s)[0]) && !IsSpace(Strip(s)[|Strip(s)| - 1])
  {
    var l := TrimLeft(s);
    assert Strip(s)[0] == l[0];
  }

  predicate IsPrefix(p: string, s: string) { |p| <= |s| && s[..|p|] == p }

  /** Whether `p` occurs in `s` as a contiguous run. */
  function ContainsText(s: string, p: string): bool
    decreases |s|
  {
    IsPrefix(p, s) || (|s| > 0 && ContainsText(s[1..], p))
  }

  /** The recursive search agrees with "p is a prefix of some suffix of s". */
  lemma {:induction false} ContainsTextAt(s: string, p: string)
    ensures ContainsText(s, p) <==> exists i :: 0 <= i <= |s| && IsPrefix(p, s[i..])
    decreases |s|
  {
    assert s[0..] == s;
    if |s| > 0 {
      ContainsTextAt(s[1..], p);
      if ContainsText(s[1..], p) {
        var i :| 0 <= i <= |s| - 1 && IsPrefix(p, s[1..][i..]);
        assert s[1..][i..] == s[i + 1..];
      }
      if exists i :: 0 <= i <= |s| && IsPrefix(p, s[i..]) {
        var i :| 0 <= i <= |s| && IsPrefix(p, s[i..]);
        if i > 0 { assert s[1..][i - 1..] == s[i..]; }
      }
    }
  }

  /** Django's `icontains` lookup: case-insensitive substring test. */
  function IContains(s: string, p: string): bool
  {
    ContainsText(Lower(s), Lower(p))
  }

  /** Lower-casing an upper-cased text gives the lower-cased text. */
  lemma LowerUpper(s: string)
    ensures Lower(Upper(s)) == Lower(s)
  {
    assert forall i :: 0 <= i < |s| ==> LowerChar(UpperChar(s[i])) == LowerChar(s[i]);
  }

  /** The search text's case does not matter. */
  lemma IContainsIgnoresCase(s: string, p: string)
    ensures IContains(s, Upper(p)) == IContains(s, p)
    ensures IContains(s, Lower(p)) == IContains(s, p)
  {
    LowerUpper(p);
    assert Lower(Lower(p)) == Lower(p);
  }
}
