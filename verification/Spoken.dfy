/** app/voice/spoken.py: an amount as a text-to-speech voice should say it. */
module Spoken {
  import opened Domain
  import opened Decimals

  const CRORE: int := 10_000_000
  const LAKH: int := 100_000
  const THOUSAND: int := 1_000

  datatype Units = Units(thousand: string, lakh: string, crore: string, rupees: string)

  const HINDI: Units := Units("हज़ार", "लाख", "करोड़", "रुपये")
  const ENGLISH: Units := Units("thousand", "lakh", "crore", "rupees")

  /** `_UNITS`: Hinglish takes the Devanagari words, and Hindi is the default. */
  function UnitsFor(language: string): Units { if language == "en" then ENGLISH else HINDI }

  /** The rupees said: whole ones, a started one counted. */
  function RupeesOf(paise: int): nat {
    var p := Max(paise, 0);
    p / 100 + if p % 100 != 0 then 1 else 0
  }

  predicate IsClean(rupees: nat, unit: int)
    requires unit > 0
  {
    rupees * 10 % unit == 0
  }

  /** A magnitude given in tenths, with one decimal place at most and no ".0". */
  function Trim(tenths: nat): string {
    if tenths % 10 == 0 then Digits(tenths / 10) else Digits(tenths / 10) + "." + [DigitChar(tenths % 10)]
  }

  function Say(paise: int, language: string): string { SayRupees(RupeesOf(paise), language) }

  function SayRupees(rupees: nat, language: string): string {
    var u := UnitsFor(language);
    if rupees >= CRORE && IsClean(rupees, CRORE) then Trim(rupees * 10 / CRORE) + " " + u.crore + " " + u.rupees
    else if rupees >= LAKH && IsClean(rupees, LAKH) then Trim(rupees * 10 / LAKH) + " " + u.lakh + " " + u.rupees
    else if rupees >= THOUSAND && rupees % THOUSAND == 0 then
      Trim(rupees * 10 / THOUSAND) + " " + u.thousand + " " + u.rupees
    else Digits(rupees) + " " + u.rupees
  }

  // ------------------------------------------------------------------- understanding

  /** The words of a sentence. */
  function Words(s: string): seq<string>
    decreases |s|
  {
    if s == "" then [""]
    else
      var init := Words(s[..|s| - 1]);
      if s[|s| - 1] == ' ' then init + [""]
      else init[..|init| - 1] + [init[|init| - 1] + [s[|s| - 1]]]
  }

  /** A numeral with one decimal place at most, in tenths. */
  function Tenths(s: string): Option<nat> {
    if s != "" && AllDigits(s) then Some(10 * Value(s))
    else if |s| >= 3 && s[|s| - 2] == '.' && IsDigit(s[|s| - 1]) && AllDigits(s[..|s| - 2])
      then Some(10 * Value(s[..|s| - 2]) + DigitValue(s[|s| - 1]))
    else None
  }

  function UnitOf(word: string, u: Units): int {
    if word == u.crore then CRORE else if word == u.lakh then LAKH else if word == u.thousand then THOUSAND else 0
  }

  /** The rupees a listener hears in a sentence; None if it is no amount. */
  function Understood(s: string, language: string): Option<int> {
    var u, w := UnitsFor(language), Words(s);
    if |w| == 2 && w[1] == u.rupees && Tenths(w[0]).Some? then Some(Tenths(w[0]).value / 10)
    else if |w| == 3 && w[2] == u.rupees && UnitOf(w[1], u) != 0 && Tenths(w[0]).Some? then
      Some(Tenths(w[0]).value * UnitOf(w[1], u) / 10)
    else None
  }

  predicate OneWord(s: string) { ' ' !in s }

  lemma {:induction false} AWord(s: string)
    requires OneWord(s)
    ensures Words(s) == [s]
    decreases |s|
  {
    if s != "" {
      var init := s[..|s| - 1];
      assert s == init + [s[|s| - 1]];
      AWord(init);
    }
  }

  lemma {:induction false} OneWordMore(a: string, b: string)
    requires OneWord(b)
    ensures Words(a + " " + b) == Words(a) + [b]
    decreases |b|
  {
    var s := a + " " + b;
    if b == "" {
      assert s == a + " ";
      assert s[..|s| - 1] == a;
    } else {
      var init := b[..|b| - 1];
      assert b == init + [b[|b| - 1]];
      OneWordMore(a, init);
      assert s[..|s| - 1] == a + " " + init;
    }
  }

  lemma TwoWords(a: string, b: string)
    requires OneWord(a) && OneWord(b)
    ensures Words(a + " " + b) == [a, b]
  {
    AWord(a);
    OneWordMore(a, b);
  }

  lemma ThreeWords(a: string, b: string, c: string)
    requires OneWord(a) && OneWord(b) && OneWord(c)
    ensures Words(a + " " + b + " " + c) == [a, b, c]
  {
    TwoWords(a, b);
    OneWordMore(a + " " + b, c);
  }

  lemma DigitsAreOneWord(n: nat)
    ensures OneWord(Digits(n))
  {
    var d := Digits(n);
    assert forall k | 0 <= k < |d| :: IsDigit(d[k]);
  }

  lemma TrimIsRead(tenths: nat)
    ensures OneWord(Trim(tenths)) && Tenths(Trim(tenths)) == Some(tenths)
  {
    var whole, s := Digits(tenths / 10), Trim(tenths);
    DigitsAreOneWord(tenths / 10);
    if tenths % 10 != 0 {
      var last := DigitChar(tenths % 10);
      assert s == whole + "." + [last];
      assert s[|s| - 2] == '.' && s[|s| - 1] == last && s[..|s| - 2] == whole;
      assert !IsDigit(s[|s| - 2]);
    }
  }

  lemma UnitsAreWords(language: string)
    ensures var u := UnitsFor(language);
            && OneWord(u.thousand) && OneWord(u.lakh) && OneWord(u.crore) && OneWord(u.rupees)
            && UnitOf(u.crore, u) == CRORE && UnitOf(u.lakh, u) == LAKH && UnitOf(u.thousand, u) == THOUSAND
  {
    assert HINDI.thousand[0] != HINDI.lakh[0] && HINDI.thousand[0] != HINDI.crore[0] && HINDI.lakh[0] != HINDI.crore[0];
    assert ENGLISH.thousand[0] != ENGLISH.lakh[0] && ENGLISH.thousand[0] != ENGLISH.crore[0]
           && ENGLISH.lakh[0] != ENGLISH.crore[0];
  }

  lemma CollapsedIsUnderstood(rupees: nat, unit: int, word: string, language: string)
    requires unit > 0 && IsClean(rupees, unit) && OneWord(word) && UnitOf(word, UnitsFor(language)) == unit
    ensures Understood(Trim(rupees * 10 / unit) + " " + word + " " + UnitsFor(language).rupees, language) ==
            Some(rupees)
  {
    var tenths := rupees * 10 / unit;
    assert tenths * unit == rupees * 10;
    UnitsAreWords(language);
    TrimIsRead(tenths);
    ThreeWords(Trim(tenths), word, UnitsFor(language).rupees);
  }

  lemma NumeralIsUnderstood(rupees: nat, language: string)
    ensures Understood(Digits(rupees) + " " + UnitsFor(language).rupees, language) == Some(rupees)
  {
    UnitsAreWords(language);
    DigitsAreOneWord(rupees);
    TwoWords(Digits(rupees), UnitsFor(language).rupees);
    assert Tenths(Digits(rupees)) == Some(10 * rupees);
    TenTimesOver(rupees);
  }

  lemma TenTimesOver(n: nat)
    ensures 10 * n / 10 == n
  {
  }

  /** Which unit is said: crores or lakhs for so much with one decimal place at most,
      thousands only for whole ones, and else the plain number. */
  lemma UnitSaid(paise: int, language: string)
    ensures var u, n, w := UnitsFor(language), RupeesOf(paise), Words(Say(paise, language));
            var crores, lakhs := n >= 10_000_000 && n % 1_000_000 == 0, n >= 100_000 && n % 10_000 == 0;
            && 2 <= |w| <= 3 && w[|w| - 1] == u.rupees
            && (crores ==> |w| == 3 && w[1] == u.crore)
            && (!crores && lakhs ==> |w| == 3 && w[1] == u.lakh)
            && (!crores && !lakhs && n >= 1000 && n % 1000 == 0 ==> |w| == 3 && w[1] == u.thousand)
            && (!crores && !lakhs && (n < 1000 || n % 1000 != 0) ==> w == [Digits(n), u.rupees])
  {
    var u, n := UnitsFor(language), RupeesOf(paise);
    UnitsAreWords(language);
    CleanMeans(n);
    if n >= CRORE && IsClean(n, CRORE) {
      SaidWith(n * 10 / CRORE, u.crore, language);
    } else if n >= LAKH && IsClean(n, LAKH) {
      SaidWith(n * 10 / LAKH, u.lakh, language);
    } else if n >= THOUSAND && n % THOUSAND == 0 {
      SaidWith(n * 10 / THOUSAND, u.thousand, language);
    } else {
      DigitsAreOneWord(n);
      TwoWords(Digits(n), u.rupees);
    }
  }

  lemma SaidWith(tenths: nat, word: string, language: string)
    requires OneWord(word)
    ensures Words(Trim(tenths) + " " + word + " " + UnitsFor(language).rupees) ==
            [Trim(tenths), word, UnitsFor(language).rupees]
  {
    UnitsAreWords(language);
    TrimIsRead(tenths);
    ThreeWords(Trim(tenths), word, UnitsFor(language).rupees);
  }

  lemma CleanMeans(n: nat)
    ensures IsClean(n, CRORE) <==> n % 1_000_000 == 0
    ensures IsClean(n, LAKH) <==> n % 10_000 == 0
  {
    var q, r := n / 1_000_000, n % 1_000_000;
    assert n * 10 == q * CRORE + r * 10 && 0 <= r * 10 < CRORE;
    var p, s := n / 10_000, n % 10_000;
    assert n * 10 == p * LAKH + s * 10 && 0 <= s * 10 < LAKH;
  }

  /** What is said is what is owed, in whole rupees rounded up: whatever the amount, the
      language and the magnitude it is collapsed to. */
  lemma SaidIsUnderstood(paise: int, language: string)
    ensures Understood(Say(paise, language), language) == Some(RupeesOf(paise))
    ensures Max(paise, 0) <= 100 * RupeesOf(paise) < Max(paise, 0) + 100
  {
    RoundedUp(paise);
    RupeesAreUnderstood(RupeesOf(paise), language);
  }

  lemma RoundedUp(paise: int)
    ensures Max(paise, 0) <= 100 * RupeesOf(paise) < Max(paise, 0) + 100
  {
  }

  lemma RupeesAreUnderstood(rupees: nat, language: string)
    ensures Understood(SayRupees(rupees, language), language) == Some(rupees)
  {
    var u := UnitsFor(language);
    UnitsAreWords(language);
    if rupees >= CRORE && IsClean(rupees, CRORE) {
      CollapsedIsUnderstood(rupees, CRORE, u.crore, language);
    } else if rupees >= LAKH && IsClean(rupees, LAKH) {
      CollapsedIsUnderstood(rupees, LAKH, u.lakh, language);
    } else if rupees >= THOUSAND && rupees % THOUSAND == 0 {
      CollapsedIsUnderstood(rupees, THOUSAND, u.thousand, language);
    } else {
      NumeralIsUnderstood(rupees, language);
    }
  }
}
