/** app/metrics.py `rupees`: an amount in paise as text, grouped three then two. */
module Rupees {
  import opened Domain
  import opened Decimals

  // ------------------------------------------------------------------ what it prints

  function Abs(n: int): nat { if n < 0 then -n else n }

  /** The text before the point of `f"{paise / 100:.2f}"`. */
  function Whole(paise: int): string {
    if paise < 0 then "-" + Digits(Abs(paise) / 100) else Digits(paise / 100)
  }

  /** The two digits behind it. */
  function Frac(paise: int): (s: string)
    ensures |s| == 2 && AllDigits(s) && Value(s) == Abs(paise) % 100
  {
    var n := Abs(paise) % 100;
    var tens, ones := [DigitChar(n / 10)], [DigitChar(n % 10)];
    assert tens[..0] == "" && ones[..0] == "";
    assert Value(tens) == n / 10 && Value(ones) == n % 10 && Pow10(1) == 10;
    ValueAppends(tens, ones);
    tens + ones
  }

  /** Groups of two from the right. */
  function Commas(head: string): string
    decreases |head|
  {
    if |head| <= 2 then head else Commas(head[..|head| - 2]) + "," + head[|head| - 2..]
  }

  function Grouped(whole: string): string {
    if |whole| <= 3 then whole else Commas(whole[..|whole| - 3]) + "," + whole[|whole| - 3..]
  }

  function Printed(paise: int): string { "₹" + Grouped(Whole(paise)) + "." + Frac(paise) }

  /** What `:.2f` makes of a quotient: the nearest number of hundredths. */
  function Hundredths(x: real): int { (x * 100.0 + 0.5).Floor }

  const TWO_TO_THE_52: int := 0x10_0000_0000_0000

  /** A double as near to `q` as rounding to nearest makes it. */
  predicate RoundedTo(x: real, q: real) {
    var error := (if q < 0.0 then -q else q) / (2 * TWO_TO_THE_52) as real;
    q - error <= x <= q + error
  }

  /** The division is done in floating point. Below 2^52 paise, either way, that does not
      show: whatever double the quotient is rounded to, its hundredths are the paise. */
  lemma DoublesKeepThePaise(paise: int, x: real)
    requires -TWO_TO_THE_52 < paise < TWO_TO_THE_52 && RoundedTo(x, paise as real / 100.0)
    ensures Hundredths(x) == paise
  {
    var p := paise as real;
    assert -0.5 < x * 100.0 - p < 0.5;
  }

  // -------------------------------------------------------------------- reading back

  function Strip(s: string): string
    decreases |s|
  {
    if s == "" then "" else Strip(s[..|s| - 1]) + if s[|s| - 1] == ',' then "" else [s[|s| - 1]]
  }

  predicate CommaFree(s: string) { ',' !in s }

  function Unsigned(whole: string): string { if whole != "" && whole[0] == '-' then whole[1..] else whole }

  /** The paise a printed amount stands for; None if it is none. */
  function ReadRupees(s: string): Option<int> {
    if |s| < 5 || s[0] != '₹' || s[|s| - 3] != '.' then None
    else
      var whole, frac := Strip(s[1..|s| - 3]), s[|s| - 2..];
      var digits := Unsigned(whole);
      if digits == "" || !AllDigits(digits) || !AllDigits(frac) then None
      else
        var n := 100 * Value(digits) + Value(frac);
        Some(if whole[0] == '-' then -n else n)
  }

  lemma {:induction false} StripAppends(a: string, b: string)
    ensures Strip(a + b) == Strip(a) + Strip(b)
    decreases |b|
  {
    if b == "" {
      assert a + b == a;
    } else {
      assert (a + b)[..|a + b| - 1] == a + b[..|b| - 1];
      StripAppends(a, b[..|b| - 1]);
    }
  }

  lemma {:induction false} StripKeeps(s: string)
    requires CommaFree(s)
    ensures Strip(s) == s
    decreases |s|
  {
    if s != "" {
      assert s == s[..|s| - 1] + [s[|s| - 1]];
      StripKeeps(s[..|s| - 1]);
    }
  }

  lemma StripJoins(a: string, b: string)
    ensures Strip(a + "," + b) == Strip(a) + Strip(b)
  {
    StripAppends(a + ",", b);
    StripAppends(a, ",");
    assert Strip(",") == "" by { assert ","[..0] == ""; }
    assert Strip(a) + "" == Strip(a);
  }

  lemma {:induction false} StripUndoesCommas(head: string)
    requires CommaFree(head)
    ensures Strip(Commas(head)) == head
    decreases |head|
  {
    if |head| <= 2 {
      StripKeeps(head);
    } else {
      var init, two := head[..|head| - 2], head[|head| - 2..];
      assert head == init + two;
      StripUndoesCommas(init);
      StripJoins(Commas(init), two);
      StripKeeps(two);
    }
  }

  lemma StripUndoesGrouped(whole: string)
    requires CommaFree(whole)
    ensures Strip(Grouped(whole)) == whole
  {
    if |whole| <= 3 {
      StripKeeps(whole);
    } else {
      var head, tail := whole[..|whole| - 3], whole[|whole| - 3..];
      assert whole == head + tail;
      StripUndoesCommas(head);
      StripJoins(Commas(head), tail);
      StripKeeps(tail);
    }
  }

  lemma WholeIsCommaFree(paise: int)
    ensures CommaFree(Whole(paise)) && Whole(paise) != ""
    ensures (Whole(paise)[0] == '-') == (paise < 0)
  {
    var d := Digits(Abs(paise) / 100);
    assert forall k | 0 <= k < |d| :: IsDigit(d[k]);
  }

  lemma Sliced(g: string, frac: string)
    requires g != "" && |frac| == 2
    ensures var s := "₹" + g + "." + frac;
            |s| >= 5 && s[0] == '₹' && s[|s| - 3] == '.' && s[1..|s| - 3] == g && s[|s| - 2..] == frac
  {
  }

  lemma WholeIsRead(paise: int)
    ensures var digits := Unsigned(Whole(paise));
            digits != "" && AllDigits(digits) && Value(digits) == Abs(paise) / 100
  {
    WholeIsCommaFree(paise);
    if paise < 0 { assert Whole(paise)[1..] == Digits(Abs(paise) / 100); }
  }

  /** Nothing is lost in print: every amount, negative ones too, reads back exactly. */
  lemma PrintedReadsBack(paise: int)
    ensures ReadRupees(Printed(paise)) == Some(paise)
  {
    WholeIsCommaFree(paise);
    WholeIsRead(paise);
    StripUndoesGrouped(Whole(paise));
    assert Grouped(Whole(paise)) != "" by { GroupedThreeThenTwo(Whole(paise)); }
    ReadsParts(Grouped(Whole(paise)), Whole(paise), Frac(paise));
    SplitAtHundred(Abs(paise));
  }

  lemma SplitAtHundred(n: nat)
    ensures 100 * (n / 100) + n % 100 == n
  {
  }

  lemma ReadsParts(g: string, whole: string, frac: string)
    requires g != "" && |frac| == 2 && AllDigits(frac) && Strip(g) == whole && whole != ""
    requires Unsigned(whole) != "" && AllDigits(Unsigned(whole))
    ensures var n := 100 * Value(Unsigned(whole)) + Value(frac);
            ReadRupees("₹" + g + "." + frac) == Some(if whole[0] == '-' then -n else n)
  {
    Sliced(g, frac);
  }

  // ------------------------------------------------------------------------ the shape

  /** Counted from the right, the commas are at 3, 6, 9 and so on, and nowhere else;
      no number starts with one. */
  predicate ThreeThenTwo(g: string) {
    && (forall j | 0 <= j < |g| :: g[j] == ',' <==> |g| - 1 - j >= 3 && (|g| - 1 - j) % 3 == 0)
    && (g != "" ==> g[0] != ',')
  }

  /** The same of the part left of the last three digits. */
  predicate EveryThird(g: string) { forall j | 0 <= j < |g| :: g[j] == ',' <==> (|g| - 1 - j) % 3 == 2 }

  lemma EveryThirdFurther(c: string, two: string)
    requires EveryThird(c) && CommaFree(two) && |two| == 2
    ensures EveryThird(c + "," + two)
  {
    var g := c + "," + two;
    forall j | 0 <= j < |g| ensures g[j] == ',' <==> (|g| - 1 - j) % 3 == 2 {
      if j < |c| { assert g[j] == c[j] && |g| - 1 - j == |c| - 1 - j + 3; }
      else if j == |c| { assert g[j] == ','; }
      else { assert g[j] == two[j - |c| - 1] && two[j - |c| - 1] in two; }
    }
  }

  lemma LastThreeEnd(c: string, tail: string)
    requires EveryThird(c) && c != "" && c[0] != ',' && CommaFree(tail) && |tail| == 3
    ensures ThreeThenTwo(c + "," + tail)
  {
    var g := c + "," + tail;
    forall j | 0 <= j < |g| ensures g[j] == ',' <==> |g| - 1 - j >= 3 && (|g| - 1 - j) % 3 == 0 {
      if j < |c| { assert g[j] == c[j] && |g| - 1 - j == |c| - 1 - j + 4; }
      else if j == |c| { assert g[j] == ','; }
      else { assert g[j] == tail[j - |c| - 1] && tail[j - |c| - 1] in tail; }
    }
  }

  lemma {:induction false} CommasEveryThird(head: string)
    requires CommaFree(head) && head != ""
    ensures EveryThird(Commas(head)) && Commas(head) != "" && Commas(head)[0] == head[0]
    decreases |head|
  {
    if |head| > 2 {
      CommasEveryThird(head[..|head| - 2]);
      EveryThirdFurther(Commas(head[..|head| - 2]), head[|head| - 2..]);
    } else {
      forall j | 0 <= j < |head| ensures head[j] != ',' { assert head[j] in head; }
    }
  }

  /** Three digits, then groups of two, whatever the length. */
  lemma GroupedThreeThenTwo(whole: string)
    requires CommaFree(whole) && whole != ""
    ensures ThreeThenTwo(Grouped(whole)) && Grouped(whole) != "" && Grouped(whole)[0] == whole[0]
  {
    if |whole| > 3 {
      CommasEveryThird(whole[..|whole| - 3]);
      assert whole[0] in whole;
      LastThreeEnd(Commas(whole[..|whole| - 3]), whole[|whole| - 3..]);
    } else {
      forall j | 0 <= j < |whole| ensures whole[j] != ',' { assert whole[j] in whole; }
    }
  }

  lemma {:induction false} CommasLength(head: string)
    requires head != ""
    ensures |Commas(head)| == |head| + (|head| - 1) / 2
    decreases |head|
  {
    if |head| > 2 { CommasLength(head[..|head| - 2]); }
  }

  /** A negative amount gets a comma right behind its sign exactly if its rupees have
      an odd number of digits, three or more. */
  lemma SignIsCutOffExactlyAtOddLengths(paise: int)
    requires paise < 0
    ensures var d := |Digits(Abs(paise) / 100)|;
            Printed(paise)[..3] == "₹-," <==> d >= 3 && d % 2 == 1
  {
    var w := Whole(paise);
    var g := Grouped(w);
    WholeIsCommaFree(paise);
    SecondCharacter(w);
    FirstThree(g, Frac(paise));
  }

  lemma SecondCharacter(whole: string)
    requires CommaFree(whole) && whole != ""
    ensures var g := Grouped(whole);
            && g != "" && g[0] == whole[0]
            && (|g| > 1 && g[1] == ',' <==> |whole| > 3 && |whole| % 2 == 0)
  {
    var g := Grouped(whole);
    GroupedThreeThenTwo(whole);
    GroupedLength(whole);
    if |whole| > 3 {
      var n, r := (|whole| - 4) / 2, (|whole| - 4) % 2;
      assert |g| - 1 - 1 == 3 * (n + 1) + r;
    } else if |g| > 1 {
      assert g[1] == whole[1] && whole[1] in whole;
    }
  }

  lemma FirstThree(g: string, frac: string)
    requires g != ""
    ensures ("₹" + g + "." + frac)[..3] == ['₹', g[0], if |g| > 1 then g[1] else '.']
  {
  }

  lemma GroupedLength(whole: string)
    requires whole != ""
    ensures |Grouped(whole)| == if |whole| <= 3 then |whole| else |whole| + 1 + (|whole| - 4) / 2
  {
    if |whole| > 3 { CommasLength(whole[..|whole| - 3]); }
  }

  // ------------------------------------------------------------------------- the loop

  function Joined(groups: seq<string>): string {
    if groups == [] then "" else if |groups| == 1 then groups[0] else groups[0] + "," + Joined(groups[1..])
  }

  /** The text from a group on: itself, or a comma and the rest behind it. */
  lemma GroupInFront(group: string, groups: seq<string>, tail: string)
    ensures Joined([group] + groups + [tail]) == group + "," + Joined(groups + [tail])
  {
    assert ([group] + groups + [tail])[1..] == groups + [tail];
  }

  lemma OneGroupMore(head: string, groups: seq<string>, tail: string)
    requires |head| > 2
    ensures Commas(head) + "," + Joined(groups + [tail])
            == Commas(head[..|head| - 2]) + "," + Joined([head[|head| - 2..]] + groups + [tail])
  {
    GroupInFront(head[|head| - 2..], groups, tail);
  }

  /** `rupees`: the groups are cut off the right end and inserted in front. */
  method Rupees(paise: Option<int>) returns (s: string)
    ensures s == Printed(if paise.None? then 0 else paise.value)
    ensures ReadRupees(s) == Some(if paise.None? then 0 else paise.value)
  {
    var value := if paise.None? then 0 else paise.value;
    PrintedReadsBack(value);
    var whole, frac := Whole(value), Frac(value);
    if |whole| > 3 {
      var head, tail := whole[..|whole| - 3], whole[|whole| - 3..];
      var groups: seq<string> := [];
      while |head| > 2
        invariant head != ""
        invariant Grouped(whole) == Commas(head) + "," + Joined(groups + [tail])
      {
        OneGroupMore(head, groups, tail);
        groups := [head[|head| - 2..]] + groups;
        head := head[..|head| - 2];
      }
      if head != "" {
        GroupInFront(head, groups, tail);
        groups := [head] + groups;
      }
      whole := Joined(groups + [tail]);
    }
    s := "₹" + whole + "." + frac;
  }
}
