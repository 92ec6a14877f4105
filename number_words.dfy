/** The `amount_in_words` template filter: an integer spelled out in English
    words (units, tens, hundreds and thousands, digits from one million up) and
    an amount of kwacha and ngwee phrased for a printed document.

    The partner of the speller is a reader in the classic style (add a unit or
    tens word, multiply by a hundred, close a group of thousands): reading the
    words back gives the number, so no two numbers share a spelling, and the
    amount phrasing can be decoded back into its kwacha and ngwee. */
module NumberWords {
  import opened Wrappers
  import opened Text

  const Ones: seq<string> := ["Zero", "One", "Two", "Three", "Four", "Five", "Six", "Seven", "Eight", "Nine",
                              "Ten", "Eleven", "Twelve", "Thirteen", "Fourteen", "Fifteen", "Sixteen",
                              "Seventeen", "Eighteen", "Nineteen"]

  const Tens: seq<string> := ["Zero", "Ten", "Twenty", "Thirty", "Forty", "Fifty", "Sixty", "Seventy",
                              "Eighty", "Ninety"]

  predicate StartsCapital(s: string) { |s| > 0 && 'A' <= s[0] <= 'Z' }

  /** `num_to_words(n)` for n >= 0. Each recursive call is on n % 100, n // 1000 or
      n % 1000, all smaller than n, so the recursion ends. */
  function NumToWords(n: nat): (r: string)
    ensures r != []
    decreases n
  {
    if n < 20 then Ones[n]
    else if n < 100 then Tens[n / 10] + (if n % 10 == 0 then "" else " " + Ones[n % 10])
    else if n < 1000 then Ones[n / 100] + " Hundred" + (if n % 100 == 0 then "" else " " + NumToWords(n % 100))
    else if n < 1000000 then
      NumToWords(n / 1000) + " Thousand" + (if n % 1000 == 0 then "" else " " + NumToWords(n % 1000))
    else DigitString(n)
  }

  /** Below one million the result is words, led by a capital letter; from one
      million up it is the decimal numeral. */
  lemma {:induction false} NumToWordsForm(n: nat)
    ensures n < 1000000 ==> StartsCapital(NumToWords(n))
    ensures n >= 1000000 ==> NumToWords(n) == DigitString(n)
    decreases n
  {
    if n < 20 {
      OnesFacts(n);
    } else if n < 100 {
      TensFacts(n / 10);
    } else if n < 1000 {
      OnesFacts(n / 100);
    } else if n < 1000000 {
      NumToWordsForm(n / 1000);
    }
  }

  // ---------------------------------------------------------------------------
  // Reading words back

  /** The value of a units, teens or tens word on its own. */
  function WordValue(w: string): Option<nat>
  {
    match w
    case "Zero" => Some(0)
    case "One" => Some(1)
    case "Two" => Some(2)
    case "Three" => Some(3)
    case "Four" => Some(4)
    case "Five" => Some(5)
    case "Six" => Some(6)
    case "Seven" => Some(7)
    case "Eight" => Some(8)
    case "Nine" => Some(9)
    case "Ten" => Some(10)
    case "Eleven" => Some(11)
    case "Twelve" => Some(12)
    case "Thirteen" => Some(13)
    case "Fourteen" => Some(14)
    case "Fifteen" => Some(15)
    case "Sixteen" => Some(16)
    case "Seventeen" => Some(17)
    case "Eighteen" => Some(18)
    case "Nineteen" => Some(19)
    case "Twenty" => Some(20)
    case "Thirty" => Some(30)
    case "Forty" => Some(40)
    case "Fifty" => Some(50)
    case "Sixty" => Some(60)
    case "Seventy" => Some(70)
    case "Eighty" => Some(80)
    case "Ninety" => Some(90)
    case _ => None
  }

  /** A reader's running state: the closed thousands and the group being read. */
  datatype Tally = Tally(total: int, current: int)

  function Step(t: Tally, w: string): Tally
  {
    if w == "Hundred" then Tally(t.total, t.current * 100)
    else if w == "Thousand" then Tally(t.total + t.current * 1000, 0)
    else match WordValue(w)
      case Some(v) => Tally(t.total, t.current + v)
      case None => t
  }

  function Run(t: Tally, ws: seq<string>): Tally
    decreases |ws|
  {
    if ws == [] then t else Run(Step(t, ws[0]), ws[1..])
  }

  /** The number a list of words denotes: a lone run of digits is read as a
      decimal numeral, anything else with the word reader. */
  function ReadNumber(ws: seq<string>): int
  {
    if |ws| == 1 && IsDigits(ws[0]) then DigitsValue(ws[0])
    else var t := Run(Tally(0, 0), ws); t.total + t.current
  }

  /** A word the speller can produce. */
  predicate IsNumberWord(w: string)
  {
    WordValue(w).Some? || w == "Hundred" || w == "Thousand" || IsDigits(w)
  }

  // ---------------------------------------------------------------------------
  // Facts about the word tables

  lemma OnesValue(k: nat)
    requires k < 20
    ensures WordValue(Ones[k]) == Some(k)
  {
    if k < 10 {
    } else {
    }
  }

  lemma OnesShape(k: nat)
    requires k < 20
    ensures ' ' !in Ones[k] && StartsCapital(Ones[k])
    ensures Ones[k] != "Hundred" && Ones[k] != "Thousand"
  {
  }

  lemma OnesFacts(k: nat)
    requires k < 20
    ensures WordValue(Ones[k]) == Some(k)
    ensures ' ' !in Ones[k] && StartsCapital(Ones[k])
    ensures Ones[k] != "Hundred" && Ones[k] != "Thousand"
  {
    OnesValue(k);
    OnesShape(k);
  }

  lemma TensValue(k: nat)
    requires 2 <= k < 10
    ensures WordValue(Tens[k]) == Some(10 * k)
  {
  }

  lemma TensShape(k: nat)
    requires 2 <= k < 10
    ensures ' ' !in Tens[k] && StartsCapital(Tens[k])
    ensures Tens[k] != "Hundred" && Tens[k] != "Thousand"
  {
  }

  lemma TensFacts(k: nat)
    requires 2 <= k < 10
    ensures WordValue(Tens[k]) == Some(10 * k)
    ensures ' ' !in Tens[k] && StartsCapital(Tens[k])
    ensures Tens[k] != "Hundred" && Tens[k] != "Thousand"
  {
    TensValue(k);
    TensShape(k);
  }

  lemma StepOnes(t: Tally, k: nat)
    requires k < 20
    ensures Step(t, Ones[k]) == Tally(t.total, t.current + k)
  {
    OnesFacts(k);
  }

  lemma StepTens(t: Tally, k: nat)
    requires 2 <= k < 10
    ensures Step(t, Tens[k]) == Tally(t.total, t.current + 10 * k)
  {
    TensFacts(k);
  }

  lemma RunAppend(t: Tally, a: seq<string>, b: seq<string>)
    ensures Run(t, a + b) == Run(Run(t, a), b)
    decreases |a|
  {
    if a == [] {
      assert a + b == b;
    } else {
      assert (a + b)[1..] == a[1..] + b;
      RunAppend(Step(t, a[0]), a[1..], b);
    }
  }

  lemma RunPair(t: Tally, a: string, b: string)
    ensures Run(t, [a, b]) == Step(Step(t, a), b)
  {
    assert [a, b][1..] == [b];
    assert Run(t, [a, b]) == Run(Step(t, a), [b]);
    assert [b][1..] == [];
    assert Run(Step(t, a), [b]) == Run(Step(Step(t, a), b), []);
  }

  lemma SplitWord(w: string)
    requires ' ' !in w
    ensures Split(w, ' ') == [w]
  {
    SplitNoSep(w, ' ');
  }

  /** A piece after the first begins with the first non-space character. */
  lemma SplitFirst(s: string, sep: char)
    requires |s| > 0 && s[0] != sep
    ensures |Split(s, sep)[0]| > 0 && Split(s, sep)[0][0] == s[0]
  {
  }

  // ---------------------------------------------------------------------------
  // Round trip

  lemma RunSingle(t: Tally, w: string)
    ensures Run(t, [w]) == Step(t, w)
  {
    assert [w][1..] == [];
  }

  /** The words for n < 100 add n to the group being read. */
  lemma BelowHundredRun(n: nat, t: Tally)
    requires n < 100
    ensures Run(t, Split(NumToWords(n), ' ')) == Tally(t.total, t.current + n)
  {
    if n < 20 {
      assert NumToWords(n) == Ones[n];
      OnesFacts(n);
      SplitWord(Ones[n]);
      RunSingle(t, Ones[n]);
      StepOnes(t, n);
    } else {
      var a := Tens[n / 10];
      TensFacts(n / 10);
      SplitWord(a);
      StepTens(t, n / 10);
      if n % 10 != 0 {
        var b := Ones[n % 10];
        OnesFacts(n % 10);
        SplitWord(b);
        assert NumToWords(n) == a + [' '] + b;
        SplitConcat(a, ' ', b);
        RunPair(t, a, b);
        StepOnes(Step(t, a), n % 10);
      } else {
        assert NumToWords(n) == a;
        RunSingle(t, a);
      }
    }
  }

  /** "<units word> Hundred" read from a closed group gives a hundreds group. */
  lemma HundredsHeadRun(h: nat, total: int)
    requires h < 10
    ensures Split(Ones[h] + [' '] + "Hundred", ' ') == [Ones[h], "Hundred"]
    ensures Run(Tally(total, 0), [Ones[h], "Hundred"]) == Tally(total, 100 * h)
  {
    OnesFacts(h);
    SplitWord(Ones[h]);
    SplitWord("Hundred");
    SplitConcat(Ones[h], ' ', "Hundred");
    StepOnes(Tally(total, 0), h);
    RunPair(Tally(total, 0), Ones[h], "Hundred");
  }

  /** num_to_words for 100 <= n < 1000, one branch at a time. */
  lemma HundredsShape(n: nat)
    requires 100 <= n < 1000
    ensures n % 100 == 0 ==> NumToWords(n) == Ones[n / 100] + [' '] + "Hundred"
    ensures n % 100 != 0 ==> NumToWords(n) == (Ones[n / 100] + [' '] + "Hundred") + [' '] + NumToWords(n % 100)
  {
  }

  /** The words for n < 1000 read from a closed group give a group of value n. */
  lemma BelowThousandRun(n: nat, total: int)
    requires n < 1000
    ensures Run(Tally(total, 0), Split(NumToWords(n), ' ')) == Tally(total, n)
  {
    if n < 100 {
      BelowHundredRun(n, Tally(total, 0));
    } else {
      var h, r := n / 100, n % 100;
      var head := Ones[h] + [' '] + "Hundred";
      HundredsHeadRun(h, total);
      HundredsShape(n);
      if r != 0 {
        SplitConcat(head, ' ', NumToWords(r));
        RunAppend(Tally(total, 0), [Ones[h], "Hundred"], Split(NumToWords(r), ' '));
        BelowHundredRun(r, Tally(total, 100 * h));
      }
    }
  }

  /** num_to_words for 1000 <= n < 1000000, one branch at a time. */
  lemma ThousandsShape(n: nat)
    requires 1000 <= n < 1000000
    ensures n % 1000 == 0 ==> NumToWords(n) == NumToWords(n / 1000) + [' '] + "Thousand"
    ensures n % 1000 != 0 ==>
      NumToWords(n) == (NumToWords(n / 1000) + [' '] + "Thousand") + [' '] + NumToWords(n % 1000)
  {
  }

  /** "<group> Thousand" read from the start closes a group of thousands. */
  /** Text followed by a space and a word splits into the text's pieces and the word. */
  lemma SplitThenWord(w: string, x: string)
    requires ' ' !in x
    ensures Split(w + [' '] + x, ' ') == Split(w, ' ') + [x]
  {
    SplitConcat(w, ' ', x);
    SplitWord(x);
  }

  lemma ThousandsHeadRun(q: nat)
    requires q < 1000
    ensures Split(NumToWords(q) + [' '] + "Thousand", ' ') == Split(NumToWords(q), ' ') + ["Thousand"]
    ensures Run(Tally(0, 0), Split(NumToWords(q), ' ') + ["Thousand"]) == Tally(1000 * q, 0)
  {
    var w := NumToWords(q);
    SplitThenWord(w, "Thousand");
    RunAppend(Tally(0, 0), Split(w, ' '), ["Thousand"]);
    BelowThousandRun(q, 0);
    assert Run(Tally(0, 0), Split(w, ' ')) == Tally(0, q);
    RunSingle(Tally(0, q), "Thousand");
    assert Step(Tally(0, q), "Thousand") == Tally(1000 * q, 0);
  }

  /** The speller's words are never taken for a lone numeral below one million. */
  lemma WordsNotNumeral(n: nat)
    requires n < 1000000
    ensures !IsDigits(Split(NumToWords(n), ' ')[0])
  {
    NumToWordsForm(n);
    SplitFirst(NumToWords(n), ' ');
  }

  /** Reading the spelled words back gives the number: num_to_words is one-to-one. */
  lemma NumToWordsRoundTrip(n: nat)
    ensures ReadNumber(Split(NumToWords(n), ' ')) == n
  {
    if n >= 1000000 {
      NumToWordsForm(n);
      SplitWord(NumToWords(n));
      DigitStringValue(n);
    } else {
      WordsNotNumeral(n);
      if n < 1000 {
        BelowThousandRun(n, 0);
      } else {
        var q, r := n / 1000, n % 1000;
        var head := NumToWords(q) + [' '] + "Thousand";
        ThousandsShape(n);
        ThousandsHeadRun(q);
        if r != 0 {
          SplitConcat(head, ' ', NumToWords(r));
          RunAppend(Tally(0, 0), Split(head, ' '), Split(NumToWords(r), ' '));
          BelowThousandRun(r, 1000 * q);
        }
      }
    }
  }

  /** Different numbers are spelled differently. */
  lemma NumToWordsInjective(a: nat, b: nat)
    requires NumToWords(a) == NumToWords(b)
    ensures a == b
  {
    NumToWordsRoundTrip(a);
    NumToWordsRoundTrip(b);
  }

  /** Every word of a spelled number is a number word. */
  lemma {:induction false} NumToWordsVocabulary(n: nat)
    ensures forall w :: w in Split(NumToWords(n), ' ') ==> IsNumberWord(w)
    decreases n
  {
    if n < 100 {
      BelowHundredVocabulary(n);
    } else if n < 1000 {
      var h, r := n / 100, n % 100;
      HundredsHeadRun(h, 0);
      OnesFacts(h);
      HundredsShape(n);
      if r != 0 {
        BelowHundredVocabulary(r);
        SplitConcat(Ones[h] + [' '] + "Hundred", ' ', NumToWords(r));
      }
    } else if n < 1000000 {
      var q, r := n / 1000, n % 1000;
      ThousandsShape(n);
      ThousandsHeadRun(q);
      NumToWordsVocabulary(q);
      if r != 0 {
        NumToWordsVocabulary(r);
        SplitConcat(NumToWords(q) + [' '] + "Thousand", ' ', NumToWords(r));
      }
    } else {
      NumToWordsForm(n);
      SplitWord(NumToWords(n));
    }
  }

  lemma BelowHundredVocabulary(n: nat)
    requires n < 100
    ensures forall w :: w in Split(NumToWords(n), ' ') ==> IsNumberWord(w)
  {
    if n < 20 {
      OnesFacts(n);
      SplitWord(Ones[n]);
    } else {
      TensFacts(n / 10);
      SplitWord(Tens[n / 10]);
      if n % 10 != 0 {
        OnesFacts(n % 10);
        SplitWord(Ones[n % 10]);
        assert NumToWords(n) == Tens[n / 10] + [' '] + Ones[n % 10];
        SplitConcat(Tens[n / 10], ' ', Ones[n % 10]);
      } else {
        assert NumToWords(n) == Tens[n / 10];
      }
    }
  }

  // ---------------------------------------------------------------------------
  // Amounts

  /** The phrasing of `amount_in_words` for a non-negative amount split into whole
      kwacha and ngwee (hundredths). */
  function AmountInWords(kwacha: nat, ngwee: nat): (r: string)
    ensures |r| > 0
  {
    NumToWords(kwacha) + " Kwacha" + (if ngwee > 0 then " And " + NumToWords(ngwee) + " Ngwee" else " Only")
  }

  /** The template filter: a value that cannot be converted to a number gives the
      empty text instead of an error. */
  function AmountFilter(value: Option<(nat, nat)>): (r: string)
    ensures r == "" <==> value.None?
    ensures value.Some? ==> r == AmountInWords(value.value.0, value.value.1)
  {
    match value
    case None => ""
    case Some((kwacha, ngwee)) => AmountInWords(kwacha, ngwee)
  }

  /** The position of the first occurrence of w, or |ws| when there is none. */
  function FirstIndex(ws: seq<string>, w: string): (i: nat)
    ensures i <= |ws|
    ensures i < |ws| ==> ws[i] == w
    ensures w !in ws[..i]
    decreases |ws|
  {
    if ws == [] then 0 else if ws[0] == w then 0 else 1 + FirstIndex(ws[1..], w)
  }

  /** Decodes "<number> Kwacha Only" and "<number> Kwacha And <number> Ngwee". */
  function ReadAmount(ws: seq<string>): Option<(int, int)>
  {
    var i := FirstIndex(ws, "Kwacha");
    if i == |ws| then None
    else
      var tail := ws[i + 1..];
      if tail == ["Only"] then Some((ReadNumber(ws[..i]), 0))
      else if |tail| >= 2 && tail[0] == "And" && tail[|tail| - 1] == "Ngwee" then
        Some((ReadNumber(ws[..i]), ReadNumber(tail[1..|tail| - 1])))
      else None
  }

  lemma KwachaIsNoNumberWord()
    ensures !IsNumberWord("Kwacha")
  {
    assert !IsDigit("Kwacha"[0]);
  }

  /** A phrase followed by two words splits into the phrase's pieces and the two words. */
  lemma SplitTwoWordsAfter(k: string, a: string, b: string)
    requires ' ' !in a && ' ' !in b
    ensures Split(k + [' '] + (a + [' '] + b), ' ') == Split(k, ' ') + [a, b]
  {
    SplitWord(a);
    SplitWord(b);
    SplitConcat(a, ' ', b);
    SplitConcat(k, ' ', a + [' '] + b);
  }

  lemma OnlyPhraseSplit(k: string)
    ensures Split(k + " Kwacha" + " Only", ' ') == Split(k, ' ') + ["Kwacha", "Only"]
  {
    assert k + " Kwacha" + " Only" == k + [' '] + ("Kwacha" + [' '] + "Only");
    SplitTwoWordsAfter(k, "Kwacha", "Only");
  }

  /** A space-free word followed by a space contributes exactly itself. */
  lemma ConsWordSplit(w: string, rest: string)
    requires ' ' !in w
    ensures Split(w + [' '] + rest, ' ') == [w] + Split(rest, ' ')
  {
    SplitWord(w);
    SplitConcat(w, ' ', rest);
  }

  /** Two words, a phrase and a word, joined by spaces, split into those words around the phrase's own pieces. */
  lemma SplitWordsAround(a: string, b: string, g: string, c: string)
    requires ' ' !in a && ' ' !in b && ' ' !in c
    ensures Split(a + [' '] + (b + [' '] + (g + [' '] + c)), ' ') == [a, b] + Split(g, ' ') + [c]
  {
    var t1 := g + [' '] + c;
    SplitWord(c);
    SplitConcat(g, ' ', c);
    ConsWordSplit(b, t1);
    ConsWordSplit(a, b + [' '] + t1);
  }

  lemma NgweeTailSplit(g: string)
    ensures Split("Kwacha" + [' '] + ("And" + [' '] + (g + [' '] + "Ngwee")), ' ') ==
      ["Kwacha", "And"] + Split(g, ' ') + ["Ngwee"]
  {
    SplitWordsAround("Kwacha", "And", g, "Ngwee");
  }

  lemma NgweePhraseText(k: string, g: string)
    ensures k + " Kwacha" + (" And " + g + " Ngwee") ==
      k + [' '] + ("Kwacha" + [' '] + ("And" + [' '] + (g + [' '] + "Ngwee")))
  {
  }

  lemma NgweePhraseSplit(k: string, g: string)
    ensures Split(k + " Kwacha" + (" And " + g + " Ngwee"), ' ') ==
      Split(k, ' ') + ["Kwacha", "And"] + Split(g, ' ') + ["Ngwee"]
  {
    var t3 := "Kwacha" + [' '] + ("And" + [' '] + (g + [' '] + "Ngwee"));
    NgweePhraseText(k, g);
    NgweeTailSplit(g);
    SplitConcat(k, ' ', t3);
  }

  /** Splitting the phrasing around any two spelled numbers. */
  lemma PhraseSplit(k: string, g: string, withNgwee: bool)
    ensures Split(k + " Kwacha" + (if withNgwee then " And " + g + " Ngwee" else " Only"), ' ') ==
      Split(k, ' ') + ["Kwacha"] + (if withNgwee then ["And"] + Split(g, ' ') + ["Ngwee"] else ["Only"])
  {
    if withNgwee { NgweePhraseSplit(k, g); } else { OnlyPhraseSplit(k); }
  }

  /** The words of an amount: the kwacha words, "Kwacha", then the tail. */
  lemma AmountSplit(kwacha: nat, ngwee: nat)
    ensures Split(AmountInWords(kwacha, ngwee), ' ') ==
      Split(NumToWords(kwacha), ' ') + ["Kwacha"] +
      (if ngwee > 0 then ["And"] + Split(NumToWords(ngwee), ' ') + ["Ngwee"] else ["Only"])
  {
    PhraseSplit(NumToWords(kwacha), NumToWords(ngwee), ngwee > 0);
  }

  /** Decoding an amount's word list, given that the kwacha words do not contain "Kwacha". */
  lemma ReadAmountOf(ks: seq<string>, tail: seq<string>, kwacha: int, ngwee: int)
    requires "Kwacha" !in ks
    requires ReadNumber(ks) == kwacha
    requires (tail == ["Only"] && ngwee == 0) ||
             (|tail| >= 2 && tail[0] == "And" && tail[|tail| - 1] == "Ngwee" &&
              ReadNumber(tail[1..|tail| - 1]) == ngwee && ngwee > 0)
    ensures ReadAmount(ks + ["Kwacha"] + tail) == Some((kwacha, ngwee))
  {
    var ws := ks + ["Kwacha"] + tail;
    FirstIndexAfter(ks, "Kwacha", tail);
    assert ws[..|ks|] == ks;
    assert ws[|ks| + 1..] == tail;
  }

  /** The amount phrasing is unambiguous: the words decode to the kwacha and
      ngwee they were made from, and a zero ngwee part reads back as zero. */
  lemma AmountRoundTrip(kwacha: nat, ngwee: nat)
    ensures ReadAmount(Split(AmountInWords(kwacha, ngwee), ' ')) == Some((kwacha, ngwee))
  {
    AmountSplit(kwacha, ngwee);
    NumToWordsRoundTrip(kwacha);
    NumToWordsVocabulary(kwacha);
    KwachaIsNoNumberWord();
    var tail := if ngwee > 0 then ["And"] + Split(NumToWords(ngwee), ' ') + ["Ngwee"] else ["Only"];
    if ngwee > 0 {
      NumToWordsRoundTrip(ngwee);
      assert tail[1..|tail| - 1] == Split(NumToWords(ngwee), ' ');
    }
    ReadAmountOf(Split(NumToWords(kwacha), ' '), tail, kwacha, ngwee);
  }

  lemma FirstIndexAfter(a: seq<string>, w: string, b: seq<string>)
    requires w !in a
    ensures FirstIndex(a + [w] + b, w) == |a|
    decreases |a|
  {
    if a != [] {
      assert (a + [w] + b)[1..] == a[1..] + [w] + b;
      FirstIndexAfter(a[1..], w, b);
    }
  }

  /** Worked values of the phrasing. */
  /** The phrasing around already spelled kwacha and ngwee words. */
  lemma AmountPhrase(kwacha: nat, ngwee: nat, k: string, g: string)
    requires NumToWords(kwacha) == k && NumToWords(ngwee) == g
    ensures AmountInWords(kwacha, ngwee) == k + " Kwacha" + (if ngwee > 0 then " And " + g + " Ngwee" else " Only")
  {
  }

  lemma AmountZero()
    ensures AmountInWords(0, 0) == "Zero Kwacha Only"
  {
    AmountPhrase(0, 0, "Zero", "Zero");
  }

  lemma AmountOne()
    ensures AmountInWords(1, 0) == "One Kwacha Only"
  {
    AmountPhrase(1, 0, "One", "Zero");
  }

  lemma FiftyWord()
    ensures NumToWords(50) == "Fifty"
  {
  }

  lemma OneWord()
    ensures NumToWords(1) == "One"
  {
  }

  lemma AmountOneFifty()
    ensures AmountInWords(1, 50) == "One Kwacha And Fifty Ngwee"
  {
    OneWord();
    FiftyWord();
    AmountPhrase(1, 50, "One", "Fifty");
    assert "One" + " Kwacha" + (" And " + "Fifty" + " Ngwee") == "One Kwacha And Fifty Ngwee";
  }

  lemma HundredTwentyWords()
    ensures NumToWords(120) == "One Hundred Twenty"
  {
    assert NumToWords(20) == "Twenty";
    assert NumToWords(120) == Ones[1] + " Hundred" + (" " + NumToWords(20));
  }

  lemma AmountOneTwenty()
    ensures AmountInWords(120, 0) == "One Hundred Twenty Kwacha Only"
  {
    HundredTwentyWords();
    AmountPhrase(120, 0, "One Hundred Twenty", "Zero");
  }
}
