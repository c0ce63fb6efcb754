/**
Durations in words. The words come from a translation table; the program's long is taken to
have 32 bits, and the number of seconds is required to fit.
*/
module TimeFormat {
  const LONG_MAX: int := 0x7FFF_FFFF

  const UNITS: nat := 7

  datatype TimeUnit = Seconds | Minutes | Hours | Days | Weeks | Months | Years

  /** The seconds in a unit, and the place of the unit in the text. */
  function UnitSeconds(t: TimeUnit): nat
  {
    Size(Place(t))
  }

  function Place(t: TimeUnit): nat
  {
    match t
    case Years => 0
    case Months => 1
    case Weeks => 2
    case Days => 3
    case Hours => 4
    case Minutes => 5
    case Seconds => 6
  }

  function Size(i: nat): (n: nat)
    ensures n > 0
  {
    if i == 0 then 31536000
    else if i == 1 then 2592000
    else if i == 2 then 604800
    else if i == 3 then 86400
    else if i == 4 then 3600
    else if i == 5 then 60
    else 1
  }

  datatype Word = Word(one: string, many: string)

  datatype Words = Words(unit: seq<Word>, conjunction: string, permanently: string)

  const ENGLISH: Words := Words([Word("year", "years"), Word("month", "months"), Word("week", "weeks"),
                                 Word("day", "days"), Word("hour", "hours"), Word("minute", "minutes"),
                                 Word("second", "seconds")], "and", "Permanently")

  // ---------- the text ----------

  predicate IsDigit(c: char)
  {
    '0' <= c <= '9'
  }

  /** std::to_string of a number that is not negative. */
  function ToString(n: nat): (s: string)
    ensures |s| > 0 && forall i :: 0 <= i < |s| ==> IsDigit(s[i])
  {
    var last := ['0' + (n % 10) as char];
    if n < 10 then last else ToString(n / 10) + last
  }

  /** How often each unit from i on occurs in the greedy decomposition. */
  function Counts(seconds: nat, i: nat): (counts: seq<nat>)
    requires i <= UNITS
    ensures |counts| == UNITS - i
    decreases UNITS - i, seconds
  {
    if i == UNITS then [] else [seconds / Size(i)] + Counts(seconds % Size(i), i + 1)
  }

  function WordFor(w: Words, count: nat, i: nat): string
    requires |w.unit| == UNITS && i < UNITS
  {
    if count == 1 then w.unit[i].one else w.unit[i].many
  }

  function Element(w: Words, count: nat, i: nat): string
    requires |w.unit| == UNITS && i < UNITS
  {
    ToString(count) + " " + WordFor(w, count, i)
  }

  /** The texts of those of the first n units that occur. */
  function Elements(w: Words, counts: seq<nat>, n: nat): (e: seq<string>)
    requires n <= |counts| <= UNITS == |w.unit|
    ensures |e| <= n
  {
    if n == 0 then [] else Elements(w, counts, n - 1) + Piece(w, counts[n - 1], n - 1)
  }

  /** The text of a unit, if it occurs. */
  function Piece(w: Words, count: nat, i: nat): (e: seq<string>)
    requires |w.unit| == UNITS && i < UNITS
    ensures |e| <= 1
  {
    if count > 0 then [Element(w, count, i)] else []
  }

  /** The first n elements with commas between them. */
  function Commas(e: seq<string>, n: nat): string
    requires 0 < n <= |e|
  {
    if n == 1 then e[0] else Commas(e, n - 1) + ", " + e[n - 1]
  }

  function Join(w: Words, e: seq<string>): string
    requires |e| > 0
  {
    var n := |e| - 1;
    if n == 0 then e[0] else Commas(e, n) + " " + w.conjunction + " " + e[n]
  }

  /** The sum of the counts in seconds, when the first of them is for unit i. */
  function CountsSum(counts: seq<nat>, i: nat): nat
  {
    if counts == [] then 0 else counts[0] * Size(i) + CountsSum(counts[1..], i + 1)
  }

  /** The counts add up to the duration. */
  lemma {:induction false} Recompose(seconds: nat, i: nat)
    requires i < UNITS
    ensures CountsSum(Counts(seconds, i), i) == seconds
    decreases UNITS - i
  {
    var count, rest := seconds / Size(i), seconds % Size(i);
    assert seconds == count * Size(i) + rest;
    assert Counts(seconds, i)[1..] == Counts(rest, i + 1);
    if i < UNITS - 1 {
      Recompose(rest, i + 1);
    } else {
      assert rest == 0;
    }
  }

  lemma {:induction false} NothingCounted(counts: seq<nat>, i: nat)
    requires forall k :: 0 <= k < |counts| ==> counts[k] == 0
    ensures CountsSum(counts, i) == 0
  {
    if counts != [] {
      NothingCounted(counts[1..], i + 1);
    }
  }

  lemma {:induction false} Occurring(w: Words, counts: seq<nat>, n: nat, k: nat)
    requires k < n <= |counts| <= UNITS == |w.unit| && counts[k] > 0
    ensures |Elements(w, counts, n)| > 0
  {
    if k < n - 1 {
      Occurring(w, counts, n - 1, k);
    }
  }

  /** Some unit occurs in a duration that is not zero. */
  lemma SomeElement(w: Words, seconds: nat)
    requires |w.unit| == UNITS && seconds > 0
    ensures |Elements(w, Counts(seconds, 0), UNITS)| > 0
  {
    var counts := Counts(seconds, 0);
    Recompose(seconds, 0);
    if forall k :: 0 <= k < UNITS ==> counts[k] == 0 {
      NothingCounted(counts, 0);
    } else {
      var k :| 0 <= k < UNITS && counts[k] > 0;
      Occurring(w, counts, UNITS, k);
    }
  }

  /** The text for a number of seconds. */
  function Text(w: Words, seconds: int): string
    requires |w.unit| == UNITS
  {
    if seconds > 0 then
      SomeElement(w, seconds);
      Join(w, Elements(w, Counts(seconds, 0), UNITS))
    else w.permanently
  }

  // ---------- the method ----------

  /** The first elements of the array are the texts of the first i units, as far as they occur. */
  ghost predicate Filled(w: Words, timeElement: array<string>, maxElementIdx: int, counts: seq<nat>, i: nat)
    requires |w.unit| == UNITS && i <= |counts| == UNITS
    reads timeElement
  {
    var e := Elements(w, counts, i);
    timeElement.Length == UNITS && maxElementIdx == |e| - 1 && timeElement[..|e|] == e
  }

  /** Appends the text of one unit if it occurs. */
  method AddElement(w: Words, timeElement: array<string>, maxElementIdx: int, count: nat, i: nat, ghost counts: seq<nat>)
    returns (index: int)
    requires |w.unit| == UNITS && i < UNITS == |counts| && count == counts[i]
    requires Filled(w, timeElement, maxElementIdx, counts, i)
    modifies timeElement
    ensures Filled(w, timeElement, index, counts, i + 1)
  {
    index := maxElementIdx;
    ghost var e := Elements(w, counts, i);
    if count > 0 {
      index := index + 1;
      timeElement[index] := ToString(count) + " " + (if count == 1 then w.unit[i].one else w.unit[i].many);
      assert timeElement[..|e| + 1] == timeElement[..|e|] + [timeElement[index]];
    }
  }

  /** The switch over the number of elements. */
  method JoinElements(w: Words, timeElement: array<string>, maxElementIdx: int) returns (output: string)
    requires timeElement.Length == UNITS && 0 <= maxElementIdx < UNITS
    ensures output == Join(w, timeElement[..maxElementIdx + 1])
  {
    ghost var e := timeElement[..maxElementIdx + 1];
    ghost var n := maxElementIdx;
    CommasAre(e, n);
    if maxElementIdx == 0 {
      output := timeElement[0];
    } else if maxElementIdx == 1 {
      output := timeElement[0] + " " + w.conjunction + " " + timeElement[1];
    } else if maxElementIdx == 2 {
      output := timeElement[0] + ", " + timeElement[1] + " " + w.conjunction + " " + timeElement[2];
    } else if maxElementIdx == 3 {
      output := timeElement[0] + ", " + timeElement[1] + ", " + timeElement[2] +
        " " + w.conjunction + " " + timeElement[3];
    } else if maxElementIdx == 4 {
      output := timeElement[0] + ", " + timeElement[1] + ", " + timeElement[2] + ", " + timeElement[3] +
        " " + w.conjunction + " " + timeElement[4];
    } else if maxElementIdx == 5 {
      output := timeElement[0] + ", " + timeElement[1] + ", " + timeElement[2] + ", " + timeElement[3] + ", " +
        timeElement[4] + " " + w.conjunction + " " + timeElement[5];
    } else {
      output := timeElement[0] + ", " + timeElement[1] + ", " + timeElement[2] + ", " + timeElement[3] + ", " +
        timeElement[4] + ", " + timeElement[5] + " " + w.conjunction + " " + timeElement[6];
    }
  }

  lemma CommasAre(e: seq<string>, n: nat)
    requires n <= |e| && n <= 6
    ensures n >= 1 ==> Commas(e, 1) == e[0]
    ensures n >= 2 ==> Commas(e, 2) == e[0] + ", " + e[1]
    ensures n >= 3 ==> Commas(e, 3) == Commas(e, 2) + ", " + e[2]
    ensures n >= 4 ==> Commas(e, 4) == Commas(e, 3) + ", " + e[3]
    ensures n >= 5 ==> Commas(e, 5) == Commas(e, 4) + ", " + e[4]
    ensures n >= 6 ==> Commas(e, 6) == Commas(e, 5) + ", " + e[5]
  {
  }

  /** What is left after taking out a unit. */
  lemma NextCount(seconds: nat, i: nat, count: nat, rest: int)
    requires i < UNITS && count == seconds / Size(i) && rest == seconds - count * Size(i)
    ensures rest >= 0 && rest == seconds % Size(i) && Counts(seconds, i) == [count] + Counts(rest, i + 1)
  {
  }

  method Decompose(seconds: nat)
    returns (yearCnt: nat, monthCnt: nat, weekCnt: nat, dayCnt: nat, hourCnt: nat, minuteCnt: nat, secondCnt: nat)
    ensures [yearCnt, monthCnt, weekCnt, dayCnt, hourCnt, minuteCnt, secondCnt] == Counts(seconds, 0)
  {
    yearCnt := seconds / 31536000;
    NextCount(seconds, 0, yearCnt, seconds - yearCnt * 31536000);
    secondCnt := seconds - yearCnt * 31536000;
    monthCnt := secondCnt / 2592000;
    NextCount(secondCnt, 1, monthCnt, secondCnt - monthCnt * 2592000);
    secondCnt := secondCnt - monthCnt * 2592000;
    weekCnt, dayCnt, hourCnt, minuteCnt, secondCnt := DecomposeMonth(secondCnt);
  }

  /** What is less than a month. */
  method DecomposeMonth(seconds: nat) returns (weekCnt: nat, dayCnt: nat, hourCnt: nat, minuteCnt: nat, secondCnt: nat)
    ensures [weekCnt, dayCnt, hourCnt, minuteCnt, secondCnt] == Counts(seconds, 2)
  {
    weekCnt := seconds / 604800;
    NextCount(seconds, 2, weekCnt, seconds - weekCnt * 604800);
    secondCnt := seconds - weekCnt * 604800;
    dayCnt := secondCnt / 86400;
    NextCount(secondCnt, 3, dayCnt, secondCnt - dayCnt * 86400);
    secondCnt := secondCnt - dayCnt * 86400;
    hourCnt, minuteCnt, secondCnt := DecomposeDay(secondCnt);
  }

  /** What is less than a day. */
  method DecomposeDay(seconds: nat) returns (hourCnt: nat, minuteCnt: nat, secondCnt: nat)
    ensures [hourCnt, minuteCnt, secondCnt] == Counts(seconds, 4)
  {
    hourCnt := seconds / 3600;
    NextCount(seconds, 4, hourCnt, seconds - hourCnt * 3600);
    secondCnt := seconds - hourCnt * 3600;
    minuteCnt := secondCnt / 60;
    NextCount(secondCnt, 5, minuteCnt, secondCnt - minuteCnt * 60);
    secondCnt := secondCnt - minuteCnt * 60;
    NextCount(secondCnt, 6, secondCnt, 0);
  }

  /** Fills the array with the texts of the units that occur. */
  method FillElements(w: Words, timeElement: array<string>, yearCnt: nat, monthCnt: nat, weekCnt: nat, dayCnt: nat,
                      hourCnt: nat, minuteCnt: nat, secondCnt: nat, ghost counts: seq<nat>)
    returns (index: int)
    requires |w.unit| == UNITS == timeElement.Length == |counts|
    requires counts[0] == yearCnt && counts[1] == monthCnt && counts[2] == weekCnt && counts[3] == dayCnt
    requires counts[4] == hourCnt && counts[5] == minuteCnt && counts[6] == secondCnt
    modifies timeElement
    ensures Filled(w, timeElement, index, counts, UNITS)
  {
    index := AddElement(w, timeElement, -1, yearCnt, 0, counts);
    index := AddElement(w, timeElement, index, monthCnt, 1, counts);
    index := AddElement(w, timeElement, index, weekCnt, 2, counts);
    index := AddElement(w, timeElement, index, dayCnt, 3, counts);
    index := AddElement(w, timeElement, index, hourCnt, 4, counts);
    index := AddElement(w, timeElement, index, minuteCnt, 5, counts);
    index := AddElement(w, timeElement, index, secondCnt, 6, counts);
  }

  method GetTimeLength(w: Words, unitCnt: int, unit: TimeUnit) returns (output: string)
    requires |w.unit| == UNITS && unitCnt * UnitSeconds(unit) <= LONG_MAX
    ensures output == Text(w, unitCnt * UnitSeconds(unit))
  {
    if unitCnt > 0 {
      var all := unitCnt * UnitSeconds(unit);
      assert all > 0;
      var yearCnt, monthCnt, weekCnt, dayCnt, hourCnt, minuteCnt, secondCnt := Decompose(all);
      ghost var counts := Counts(all, 0);
      var timeElement := new string[7](_ => "");
      var index :=
        FillElements(w, timeElement, yearCnt, monthCnt, weekCnt, dayCnt, hourCnt, minuteCnt, secondCnt, counts);
      SomeElement(w, all);
      output := JoinElements(w, timeElement, index);
    } else {
      assert unitCnt * UnitSeconds(unit) <= 0;
      output := w.permanently;
    }
  }

  // ---------- ranges ----------

  /** How large the counts can be: twelve months leave no week and at most four days. */
  lemma Ranges(seconds: nat)
    ensures var c := Counts(seconds, 0);
            && c[1] <= 12 && (c[1] == 12 ==> c[2] == 0 && c[3] <= 4)
            && c[2] <= 4 && (c[2] == 4 ==> c[3] <= 1) && c[3] <= 6
            && c[4] <= 23 && c[5] <= 59 && c[6] <= 59
  {
    var s1 := seconds % 31536000;
    var s2 := s1 % 2592000;
    var s3 := s2 % 604800;
    var s4 := s3 % 86400;
    var s5 := s4 % 3600;
    NextCount(seconds, 0, seconds / 31536000, s1);
    NextCount(s1, 1, s1 / 2592000, s2);
    NextCount(s2, 2, s2 / 604800, s3);
    NextCount(s3, 3, s3 / 86400, s4);
    NextCount(s4, 4, s4 / 3600, s5);
    NextCount(s5, 5, s5 / 60, s5 % 60);
    NextCount(s5 % 60, 6, s5 % 60, 0);
  }

  // ---------- the text determines the duration ----------

  ghost predicate NoDigits(s: string)
  {
    forall i :: 0 <= i < |s| ==> !IsDigit(s[i])
  }

  ghost predicate AllDigits(s: string)
  {
    |s| > 0 && forall i :: 0 <= i < |s| ==> IsDigit(s[i])
  }

  /** Words without digits. */
  ghost predicate Plain(w: Words)
  {
    && |w.unit| == UNITS && NoDigits(w.conjunction)
    && (forall i :: 0 <= i < UNITS ==> NoDigits(w.unit[i].one) && NoDigits(w.unit[i].many))
  }

  /** No two units share a singular or share a plural. */
  ghost predicate Distinct(w: Words)
    requires |w.unit| == UNITS
  {
    forall i, j :: 0 <= i < j < UNITS ==> w.unit[i].one != w.unit[j].one && w.unit[i].many != w.unit[j].many
  }

  function DigitValue(c: char): int
  {
    (c as int) - ('0' as int)
  }

  function Value(s: string): int
  {
    if s == "" then 0 else 10 * Value(s[..|s| - 1]) + DigitValue(s[|s| - 1])
  }

  lemma {:induction false} ValueBack(n: nat)
    ensures Value(ToString(n)) == n
  {
    var last := ['0' + (n % 10) as char];
    assert DigitValue(last[0]) == n % 10;
    if n < 10 {
      assert last[..0] == "";
    } else {
      ValueBack(n / 10);
      assert (ToString(n / 10) + last)[..|ToString(n / 10)|] == ToString(n / 10);
    }
  }

  /** The last run of digits and what stands behind it can be told apart. */
  lemma LastNumber(x: string, d: string, n: string, x': string, d': string, n': string)
    requires x + d + n == x' + d' + n'
    requires AllDigits(d) && AllDigits(d') && NoDigits(n) && NoDigits(n')
    requires (x != "" ==> !IsDigit(x[|x| - 1])) && (x' != "" ==> !IsDigit(x'[|x'| - 1]))
    ensures x == x' && d == d' && n == n'
  {
    TailNotShorter(x + d, n, x' + d', n');
    TailNotShorter(x' + d', n', x + d, n);
    assert n == (x + d + n)[|x + d|..];
    assert n' == (x' + d' + n')[|x' + d'|..];
    assert x + d == (x + d + n)[..|x + d|];
    assert x' + d' == (x' + d' + n')[..|x' + d'|];
    HeadNotShorter(x, d, x', d');
    HeadNotShorter(x', d', x, d);
    assert x == (x + d)[..|x|] && d == (x + d)[|x|..];
    assert x' == (x' + d')[..|x'|] && d' == (x' + d')[|x'|..];
  }

  lemma CharAt(x: string, y: string, k: nat)
    requires k < |x| + |y|
    ensures (x + y)[k] == if k < |x| then x[k] else y[k - |x|]
  {
  }

  lemma TailNotShorter(u: string, n: string, u': string, n': string)
    requires u + n == u' + n' && NoDigits(n') && u != "" && IsDigit(u[|u| - 1])
    ensures |n'| <= |n|
  {
    assert |u + n| == |u' + n'|;
    CharAt(u, n, |u| - 1);
    CharAt(u', n', |u| - 1);
  }

  lemma HeadNotShorter(x: string, d: string, x': string, d': string)
    requires x + d == x' + d' && AllDigits(d') && (x != "" ==> !IsDigit(x[|x| - 1]))
    ensures |x| <= |x'|
  {
    assert |x + d| == |x' + d'|;
    if x != "" {
      CharAt(x, d, |x| - 1);
      CharAt(x', d', |x| - 1);
    }
  }

  // A number and what stands behind it.

  ghost predicate Numbered(t: string, d: string, n: string)
  {
    t == d + n && AllDigits(d) && NoDigits(n)
  }

  ghost predicate IsElement(t: string)
  {
    exists d, n :: Numbered(t, d, n)
  }

  ghost predicate AllElements(e: seq<string>)
  {
    forall i :: 0 <= i < |e| ==> IsElement(e[i])
  }

  ghost predicate NoDigitAtEnd(x: string)
  {
    x != "" ==> !IsDigit(x[|x| - 1])
  }

  /** If what stands before them ends without a digit, equal texts end in the same element. */
  lemma SameLast(x: string, t: string, x': string, t': string)
    requires x + t == x' + t' && IsElement(t) && IsElement(t') && NoDigitAtEnd(x) && NoDigitAtEnd(x')
    ensures x == x' && t == t'
  {
    var d, n :| Numbered(t, d, n);
    var d', n' :| Numbered(t', d', n');
    assert x + t == x + d + n && x' + t' == x' + d' + n';
    LastNumber(x, d, n, x', d', n');
  }

  lemma SameFront<T>(a: seq<T>, b: seq<T>, tail: seq<T>)
    requires a + tail == b + tail
    ensures a == b
  {
    assert |a| == |b|;
    assert a == (a + tail)[..|a|] && b == (b + tail)[..|b|];
  }

  /** What stands before the last of n elements. */
  function CommaLead(e: seq<string>, n: nat): string
    requires 0 < n <= |e|
  {
    if n == 1 then "" else Commas(e, n - 1) + ", "
  }

  lemma CommasLead(e: seq<string>, n: nat)
    requires 0 < n <= |e|
    ensures Commas(e, n) == CommaLead(e, n) + e[n - 1] && NoDigitAtEnd(CommaLead(e, n))
    ensures e[..n] == e[..n - 1] + [e[n - 1]]
  {
  }

  lemma {:induction false} CommasInjective(e: seq<string>, m: nat, f: seq<string>, n: nat)
    requires AllElements(e) && AllElements(f) && 0 < m <= |e| && 0 < n <= |f| && Commas(e, m) == Commas(f, n)
    ensures e[..m] == f[..n]
  {
    CommasLead(e, m);
    CommasLead(f, n);
    SameLast(CommaLead(e, m), e[m - 1], CommaLead(f, n), f[n - 1]);
    if m > 1 && n > 1 {
      SameFront(Commas(e, m - 1), Commas(f, n - 1), ", ");
      CommasInjective(e, m - 1, f, n - 1);
    }
  }

  /** What stands before the last element. */
  function Lead(w: Words, e: seq<string>): string
    requires |e| > 0
  {
    if |e| == 1 then "" else Commas(e, |e| - 1) + (" " + w.conjunction + " ")
  }

  lemma JoinLead(w: Words, e: seq<string>)
    requires |e| > 0
    ensures Join(w, e) == Lead(w, e) + e[|e| - 1] && NoDigitAtEnd(Lead(w, e))
  {
    if |e| > 1 {
      var c := Commas(e, |e| - 1);
      assert c + (" " + w.conjunction + " ") == c + " " + w.conjunction + " ";
    }
  }

  lemma JoinInjective(w: Words, e: seq<string>, f: seq<string>)
    requires AllElements(e) && AllElements(f) && |e| > 0 && |f| > 0 && Join(w, e) == Join(w, f)
    ensures e == f
  {
    JoinLead(w, e);
    JoinLead(w, f);
    SameLast(Lead(w, e), e[|e| - 1], Lead(w, f), f[|f| - 1]);
    if |e| > 1 && |f| > 1 {
      SameFront(Commas(e, |e| - 1), Commas(f, |f| - 1), " " + w.conjunction + " ");
      CommasInjective(e, |e| - 1, f, |f| - 1);
    }
    assert e == e[..|e| - 1] + [e[|e| - 1]] && f == f[..|f| - 1] + [f[|f| - 1]];
  }

  /** An element tells its count and its unit. */
  lemma SameElement(w: Words, c: nat, i: nat, c': nat, i': nat)
    requires Plain(w) && Distinct(w) && i < UNITS && i' < UNITS && Element(w, c, i) == Element(w, c', i')
    ensures c == c' && i == i'
  {
    var n, n' := " " + WordFor(w, c, i), " " + WordFor(w, c', i');
    assert Element(w, c, i) == "" + ToString(c) + n && Element(w, c', i') == "" + ToString(c') + n';
    LastNumber("", ToString(c), n, "", ToString(c'), n');
    ValueBack(c);
    ValueBack(c');
    assert n[1..] == WordFor(w, c, i) && n'[1..] == WordFor(w, c', i');
  }

  lemma ElementIs(w: Words, c: nat, i: nat)
    requires Plain(w) && i < UNITS
    ensures IsElement(Element(w, c, i))
  {
    assert Numbered(Element(w, c, i), ToString(c), " " + WordFor(w, c, i));
  }

  /** Every element is that of some unit that occurs. */
  lemma {:induction false} ElementOf(w: Words, counts: seq<nat>, n: nat, k: nat) returns (i: nat)
    requires n <= |counts| <= UNITS == |w.unit| && k < |Elements(w, counts, n)|
    ensures i < n && counts[i] > 0 && Elements(w, counts, n)[k] == Element(w, counts[i], i)
  {
    if k < |Elements(w, counts, n - 1)| {
      i := ElementOf(w, counts, n - 1, k);
    } else {
      i := n - 1;
    }
  }

  lemma ElementsAre(w: Words, counts: seq<nat>)
    requires Plain(w) && |counts| == UNITS
    ensures AllElements(Elements(w, counts, UNITS))
  {
    forall k | 0 <= k < |Elements(w, counts, UNITS)|
      ensures IsElement(Elements(w, counts, UNITS)[k])
    {
      var i := ElementOf(w, counts, UNITS, k);
      ElementIs(w, counts[i], i);
    }
  }

  /** The last unit that occurs shows in the last element. */
  lemma LastDiffers(w: Words, c: seq<nat>, c': seq<nat>, n: nat)
    requires Plain(w) && Distinct(w) && 0 < n <= |c| == |c'| <= UNITS && Elements(w, c, n) == Elements(w, c', n)
    ensures c[n - 1] > 0 ==> c'[n - 1] == c[n - 1]
  {
    if c[n - 1] > 0 {
      var last := |Elements(w, c, n)| - 1;
      assert Elements(w, c, n)[last] == Element(w, c[n - 1], n - 1);
      var i := ElementOf(w, c', n, last);
      SameElement(w, c[n - 1], n - 1, c'[i], i);
    }
  }

  lemma {:induction false} SameCounts(w: Words, c: seq<nat>, c': seq<nat>, n: nat)
    requires Plain(w) && Distinct(w) && n <= |c| == |c'| <= UNITS && Elements(w, c, n) == Elements(w, c', n)
    ensures forall k :: 0 <= k < n ==> c[k] == c'[k]
  {
    if n > 0 {
      LastDiffers(w, c, c', n);
      LastDiffers(w, c', c, n);
      SameFront(Elements(w, c, n - 1), Elements(w, c', n - 1), Piece(w, c[n - 1], n - 1));
      SameCounts(w, c, c', n - 1);
    }
  }

  /** The text of a duration begins with a digit. */
  lemma StartsWithDigit(w: Words, seconds: int)
    requires Plain(w) && seconds > 0
    ensures Text(w, seconds) != "" && IsDigit(Text(w, seconds)[0])
  {
    SomeElement(w, seconds);
    var e := Elements(w, Counts(seconds, 0), UNITS);
    var i := ElementOf(w, Counts(seconds, 0), UNITS, 0);
    assert e[0][0] == ToString(Counts(seconds, 0)[i])[0];
    JoinLead(w, e);
    if |e| > 1 {
      CommasBegin(e, |e| - 1);
    }
  }

  lemma {:induction false} CommasBegin(e: seq<string>, n: nat)
    requires 0 < n <= |e| && e[0] != ""
    ensures Commas(e, n) != "" && Commas(e, n)[0] == e[0][0]
  {
    if n > 1 {
      CommasBegin(e, n - 1);
    }
  }

  // ---------- one unit alone ----------

  lemma SmallDivision(a: nat, b: nat)
    requires a < b
    ensures a / b == 0 && a % b == a
  {
  }

  lemma {:induction false} CountsZero(from: nat)
    requires from <= UNITS
    ensures forall k :: 0 <= k < |Counts(0, from)| ==> Counts(0, from)[k] == 0
    decreases UNITS - from
  {
    if from < UNITS {
      CountsZero(from + 1);
    }
  }

  ghost predicate OnlyAt(counts: seq<nat>, i: int, count: nat)
  {
    forall k :: 0 <= k < |counts| ==> counts[k] == if k == i then count else 0
  }

  lemma {:induction false} CountsOne(seconds: nat, i: nat, count: nat, from: nat)
    requires from <= i < UNITS && seconds / Size(i) == count && seconds % Size(i) == 0
    requires forall k :: 0 <= k < i ==> seconds < Size(k)
    ensures OnlyAt(Counts(seconds, from), i - from, count)
    decreases i - from
  {
    if from < i {
      SmallDivision(seconds, Size(from));
      CountsOne(seconds, i, count, from + 1);
      assert Counts(seconds, from) == [0] + Counts(seconds, from + 1);
    } else {
      CountsZero(from + 1);
      assert Counts(seconds, from) == [count] + Counts(0, from + 1);
    }
  }

  lemma {:induction false} ElementsOne(w: Words, counts: seq<nat>, i: nat, count: nat, n: nat)
    requires n <= |counts| <= UNITS == |w.unit| && i < |counts| && count > 0 && OnlyAt(counts, i, count)
    ensures Elements(w, counts, n) == if i < n then [Element(w, count, i)] else []
  {
    if n > 0 {
      ElementsOne(w, counts, i, count, n - 1);
    }
  }

  lemma OnlyUnit(i: nat, count: nat, seconds: nat)
    requires i < UNITS && (count == 1 || count == 2) && seconds == count * Size(i)
    ensures seconds > 0 && seconds / Size(i) == count && seconds % Size(i) == 0
    ensures forall k :: 0 <= k < i ==> seconds < Size(k)
  {
  }

  lemma OneUnit(w: Words, i: nat, count: nat, seconds: nat)
    requires |w.unit| == UNITS && i < UNITS && (count == 1 || count == 2) && seconds == count * Size(i)
    ensures seconds > 0 && Text(w, seconds) == Element(w, count, i)
  {
    OnlyUnit(i, count, seconds);
    CountsOne(seconds, i, count, 0);
    ElementsOne(w, Counts(seconds, 0), i, count, UNITS);
  }

  lemma SizesFall(i: nat, k: nat)
    requires k < i < UNITS
    ensures Size(i - 1) <= Size(k)
  {
  }

  /** A number of one unit, too small for a larger one: the number, a space, and the singular for
      one, the plural for more. */
  lemma SingleUnit(w: Words, i: nat, count: nat)
    requires |w.unit| == UNITS && i < UNITS && count > 0 && (i > 0 ==> count * Size(i) < Size(i - 1))
    ensures Text(w, count * Size(i)) == ToString(count) + " " + (if count == 1 then w.unit[i].one else w.unit[i].many)
  {
    var seconds := count * Size(i);
    Multiple(count, Size(i));
    forall k | 0 <= k < i
      ensures seconds < Size(k)
    {
      SizesFall(i, k);
    }
    CountsOne(seconds, i, count, 0);
    ElementsOne(w, Counts(seconds, 0), i, count, UNITS);
  }

  lemma Multiple(n: nat, m: nat)
    requires n > 0 && m > 0
    ensures n * m > 0 && n * m / m == n && n * m % m == 0
  {
    var q, r := n * m / m, n * m % m;
    assert n * m == q * m + r;
    var d := n - q;
    assert d * m == r;
    OnceAtLeast(d, m);
  }

  lemma OnceAtLeast(d: int, m: int)
    requires m > 0
    ensures d > 0 ==> d * m >= m
    ensures d < 0 ==> d * m <= -m
  {
  }

  lemma {:induction false} CommasFront(a: string, e: seq<string>, n: nat)
    requires 0 < n <= |e|
    ensures Commas([a] + e, n + 1) == a + ", " + Commas(e, n)
  {
    var all := [a] + e;
    assert all[n] == e[n - 1] && Commas(all, 1) == a;
    if n > 1 {
      CommasFront(a, e, n - 1);
    }
  }

  /** How the texts of units are joined, from the front: with the conjunction before the last one
      and a comma before the others. */
  lemma JoinFront(w: Words, a: string, e: seq<string>)
    requires |e| > 0
    ensures Join(w, [a]) == a
    ensures Join(w, [a] + e) == if |e| == 1 then a + " " + w.conjunction + " " + e[0] else a + ", " + Join(w, e)
  {
    var all := [a] + e;
    assert all[|e|] == e[|e| - 1];
    if |e| == 1 {
      assert Commas(all, 1) == a;
    } else {
      CommasFront(a, e, |e| - 1);
    }
  }

  /** With words without digits, different durations get different texts exactly if no two units
      share a singular or share a plural. */
  lemma TextDeterminesDuration(w: Words)
    requires Plain(w)
    ensures (forall a, b | a > 0 && b > 0 && Text(w, a) == Text(w, b) :: a == b) <==> Distinct(w)
  {
    if Distinct(w) {
      forall a, b | a > 0 && b > 0 && Text(w, a) == Text(w, b)
        ensures a == b
      {
        SameText(w, a, b);
      }
    } else {
      var i, j :| 0 <= i < j < UNITS && (w.unit[i].one == w.unit[j].one || w.unit[i].many == w.unit[j].many);
      var count := if w.unit[i].one == w.unit[j].one then 1 else 2;
      OneUnit(w, i, count, count * Size(i));
      OneUnit(w, j, count, count * Size(j));
      SizesDiffer(i, j, count);
      assert Text(w, count * Size(i)) == Text(w, count * Size(j));
    }
  }

  lemma SizesDiffer(i: nat, j: nat, count: nat)
    requires i < j < UNITS && (count == 1 || count == 2)
    ensures count * Size(i) > count * Size(j) > 0
  {
  }

  lemma SameText(w: Words, a: int, b: int)
    requires Plain(w) && Distinct(w) && a > 0 && b > 0 && Text(w, a) == Text(w, b)
    ensures a == b
  {
    SomeElement(w, a);
    SomeElement(w, b);
    ElementsAre(w, Counts(a, 0));
    ElementsAre(w, Counts(b, 0));
    JoinInjective(w, Elements(w, Counts(a, 0), UNITS), Elements(w, Counts(b, 0), UNITS));
    SameCounts(w, Counts(a, 0), Counts(b, 0), UNITS);
    assert Counts(a, 0) == Counts(b, 0);
    Recompose(a, 0);
    Recompose(b, 0);
  }

  /** The English table is one of these, and its word for no limit is never a duration. */
  lemma English(a: int, b: int)
    ensures a <= 0 ==> Text(ENGLISH, a) == "Permanently"
    ensures Text(ENGLISH, a) == Text(ENGLISH, b) <==> a == b || (a <= 0 && b <= 0)
  {
    EnglishWords();
    if a > 0 {
      StartsWithDigit(ENGLISH, a);
    }
    if b > 0 {
      StartsWithDigit(ENGLISH, b);
    }
    if a > 0 && b > 0 && Text(ENGLISH, a) == Text(ENGLISH, b) {
      SameText(ENGLISH, a, b);
    }
  }

  lemma EnglishOnes()
    ensures forall i, j :: 0 <= i < j < UNITS ==> ENGLISH.unit[i].one != ENGLISH.unit[j].one
    ensures forall i :: 0 <= i < UNITS ==> NoDigits(ENGLISH.unit[i].one)
  {
    var u := ENGLISH.unit;
    assert u[0].one[0] == 'y' && u[1].one[0] == 'm' && u[2].one[0] == 'w' && u[3].one[0] == 'd';
    assert u[4].one[0] == 'h' && u[5].one[0] == 'm' && u[6].one[0] == 's' && u[1].one[1] == 'o' && u[5].one[1] == 'i';
  }

  lemma EnglishManies()
    ensures forall i, j :: 0 <= i < j < UNITS ==> ENGLISH.unit[i].many != ENGLISH.unit[j].many
    ensures forall i :: 0 <= i < UNITS ==> NoDigits(ENGLISH.unit[i].many)
  {
    var u := ENGLISH.unit;
    assert |u[0].many| == 5 && |u[1].many| == 6 && |u[2].many| == 5 && |u[3].many| == 4;
    assert |u[4].many| == 5 && |u[5].many| == 7 && |u[6].many| == 7;
    assert u[0].many[0] == 'y' && u[2].many[0] == 'w' && u[4].many[0] == 'h' && u[5].many[0] == 'm' && u[6].many[0] == 's';
  }

  lemma EnglishWords()
    ensures Plain(ENGLISH) && Distinct(ENGLISH)
  {
    EnglishOnes();
    EnglishManies();
  }
}
