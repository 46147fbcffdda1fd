/**
 * The text of dates as the server uses it: month names as strptime's `%B`
 * accepts them (month_name_to_number), the two-digit month `%m` / `:02`,
 * the four-digit year `%Y`, the `MMYYYY` key of the bill store, and the
 * `key[2:6]` slice that reads a year back out of a key.
 */
module DateKeys {
  import opened Wrappers

  /** Full month names of the C locale, January first. */
  const Names: seq<string> := ["January", "February", "March", "April", "May", "June", "July",
                               "August", "September", "October", "November", "December"]

  /** The same names in lower case: the form strptime compares against. */
  const FoldedNames: seq<string> := ["january", "february", "march", "april", "may", "june", "july",
                                     "august", "september", "october", "november", "december"]

  function MonthName(m: nat): string
    requires 1 <= m <= 12
  {
    Names[m - 1]
  }

  /** ASCII lower-casing of one character. */
  function LowerChar(c: char): char
  {
    if 'A' <= c <= 'Z' then (c as int - 'A' as int + 'a' as int) as char else c
  }

  /** The regular expression behind `%B` is compiled with IGNORECASE: names are compared lower-cased. */
  function Lower(s: string): string
  {
    seq(|s|, i requires 0 <= i < |s| => LowerChar(s[i]))
  }

  lemma FoldedName(m: nat)
    requires 1 <= m <= 12
    ensures Lower(MonthName(m)) == FoldedNames[m - 1]
  {
    if m <= 4 { FoldedNameJanToApr(m); }
    else if m <= 8 { FoldedNameMayToAug(m); }
    else { FoldedNameSepToDec(m); }
  }

  lemma FoldedNameJanToApr(m: nat)
    requires 1 <= m <= 4
    ensures Lower(MonthName(m)) == FoldedNames[m - 1]
  {
    if m == 1 { assert Lower("January") == "january"; }
    else if m == 2 { assert Lower("February") == "february"; }
    else if m == 3 { assert Lower("March") == "march"; }
    else { assert Lower("April") == "april"; }
  }

  lemma FoldedNameMayToAug(m: nat)
    requires 5 <= m <= 8
    ensures Lower(MonthName(m)) == FoldedNames[m - 1]
  {
    if m == 5 { assert Lower("May") == "may"; }
    else if m == 6 { assert Lower("June") == "june"; }
    else if m == 7 { assert Lower("July") == "july"; }
    else { assert Lower("August") == "august"; }
  }

  lemma FoldedNameSepToDec(m: nat)
    requires 9 <= m <= 12
    ensures Lower(MonthName(m)) == FoldedNames[m - 1]
  {
    if m == 9 { assert Lower("September") == "september"; }
    else if m == 10 { assert Lower("October") == "october"; }
    else if m == 11 { assert Lower("November") == "november"; }
    else { assert Lower("December") == "december"; }
  }

  /** Lower-casing a lower-case name leaves it as it is. */
  lemma FoldedNameFolded(i: nat)
    requires i < 12
    ensures Lower(FoldedNames[i]) == FoldedNames[i]
  {
  }

  lemma FoldedNamesDistinct(i: nat, j: nat)
    requires i < 12 && j < 12 && FoldedNames[i] == FoldedNames[j]
    ensures i == j
  {
    assert |FoldedNames[i]| == |FoldedNames[j]| && FoldedNames[i][0] == FoldedNames[j][0];
    if |FoldedNames[i]| == 3 {
      assert FoldedNames[i][2] == FoldedNames[j][2];
    } else if |FoldedNames[i]| == 4 {
      assert FoldedNames[i][3] == FoldedNames[j][3];
    }
  }

  /** Tries the folded names from index `i` on; the first that equals `folded` wins. */
  function FindFrom(folded: string, i: nat): (r: Option<nat>)
    requires i <= 12
    decreases 12 - i
    ensures r.Some? ==> i < r.value <= 12 && folded == FoldedNames[r.value - 1]
    ensures r.Some? ==> forall k :: i <= k < r.value - 1 ==> folded != FoldedNames[k]
    ensures r.None? ==> forall k :: i <= k < 12 ==> folded != FoldedNames[k]
  {
    if i == 12 then None
    else if folded == FoldedNames[i] then Some(i + 1)
    else FindFrom(folded, i + 1)
  }

  /**
   * `datetime.strptime(name, '%B').month`, or None where strptime raises
   * ValueError: the whole of `name` must be one full month name, in any mix
   * of upper and lower case.
   */
  function MonthOf(name: string): (r: Option<nat>)
    ensures r.Some? ==> 1 <= r.value <= 12 && Lower(name) == FoldedNames[r.value - 1]
    ensures r.None? <==> Lower(name) !in FoldedNames
  {
    FindFrom(Lower(name), 0)
  }

  function Digit(d: nat): char
    requires d < 10
  {
    ('0' as int + d) as char
  }

  /** `f"{n:02}"` and `%m`: two decimal digits, zero first when n < 10. */
  function TwoDigits(n: nat): string
    requires n < 100
  {
    [Digit(n / 10), Digit(n % 10)]
  }

  /** `%Y`: four decimal digits, zero-padded. */
  function FourDigits(y: nat): string
    requires y < 10000
  {
    TwoDigits(y / 100) + TwoDigits(y % 100)
  }

  /** The month codes "01" .. "12" written out. */
  const MonthCodes: seq<string> := ["01", "02", "03", "04", "05", "06", "07", "08", "09", "10", "11", "12"]

  lemma MonthCode(m: nat)
    requires 1 <= m <= 12
    ensures TwoDigits(m) == MonthCodes[m - 1]
  {
  }

  /** month_name_to_number: the two-digit number of a month name, or None. */
  function MonthNumber(name: string): (r: Option<string>)
    ensures r.Some? <==> Lower(name) in FoldedNames
    ensures forall i :: 0 <= i < 12 && FoldedNames[i] == Lower(name) ==> r == Some(MonthCodes[i])
  {
    match MonthOf(name)
    case None => None
    case Some(m) =>
      forall i | 0 <= i < 12 && FoldedNames[i] == Lower(name) ensures i == m - 1 {
        FoldedNamesDistinct(i, m - 1);
      }
      MonthCode(m);
      Some(TwoDigits(m))
  }

  /** `today.strftime('%m%Y')`: the key of the month's bill. */
  function DateKey(month: nat, year: nat): (k: string)
    requires 1 <= month <= 12 && year < 10000
    ensures |k| == 6 && k == MonthCodes[month - 1] + FourDigits(year)
  {
    MonthCode(month);
    TwoDigits(month) + FourDigits(year)
  }

  /** Python's `s[lo:hi]` for 0 <= lo <= hi: both bounds clamped to the length. */
  function Slice(s: string, lo: nat, hi: nat): string
    requires lo <= hi
  {
    var a := if lo < |s| then lo else |s|;
    var b := if hi < |s| then hi else |s|;
    s[a..b]
  }

  /** `key[2:6]`: the year part of a key, or whatever of it a short key has. */
  function YearOf(key: string): (y: string)
    ensures |key| >= 6 ==> y == key[2..6]
  {
    Slice(key, 2, 6)
  }

  function DigitValue(c: char): int
  {
    c as int - '0' as int
  }

  function TwoDigitsValue(s: string): int
    requires |s| == 2
  {
    10 * DigitValue(s[0]) + DigitValue(s[1])
  }

  lemma TwoDigitsRoundTrip(n: nat)
    requires n < 100
    ensures TwoDigitsValue(TwoDigits(n)) == n
  {
  }

  /** Distinct months give distinct keys: a key names one month of one year. */
  lemma {:induction false} DateKeyInjective(m1: nat, y1: nat, m2: nat, y2: nat)
    requires 1 <= m1 <= 12 && y1 < 10000
    requires 1 <= m2 <= 12 && y2 < 10000
    ensures DateKey(m1, y1) == DateKey(m2, y2) <==> m1 == m2 && y1 == y2
  {
    if DateKey(m1, y1) == DateKey(m2, y2) {
      var k1, k2 := DateKey(m1, y1), DateKey(m2, y2);
      assert k1[0..2] == TwoDigits(m1) && k2[0..2] == TwoDigits(m2);
      assert k1[2..4] == TwoDigits(y1 / 100) && k2[2..4] == TwoDigits(y2 / 100);
      assert k1[4..6] == TwoDigits(y1 % 100) && k2[4..6] == TwoDigits(y2 % 100);
      TwoDigitsRoundTrip(m1);
      TwoDigitsRoundTrip(m2);
      TwoDigitsRoundTrip(y1 / 100);
      TwoDigitsRoundTrip(y2 / 100);
      TwoDigitsRoundTrip(y1 % 100);
      TwoDigitsRoundTrip(y2 % 100);
    }
  }

  /** The `key[2:6]` of a month's key is its `%Y` year. */
  lemma YearOfDateKey(month: nat, year: nat)
    requires 1 <= month <= 12 && year < 10000
    ensures YearOf(DateKey(month, year)) == FourDigits(year)
  {
    assert DateKey(month, year)[2..6] == FourDigits(year);
  }

  /**
   * month_name_to_number gives month m's code exactly for the names that
   * differ from m's full name only in letter case.
   */
  lemma MonthNumberOfName(name: string, m: nat)
    requires 1 <= m <= 12
    ensures MonthNumber(name) == Some(MonthCodes[m - 1]) <==> Lower(name) == Lower(MonthName(m))
  {
    FoldedName(m);
    if MonthNumber(name) == Some(MonthCodes[m - 1]) {
      var k := MonthOf(name).value;
      MonthCode(k);
      MonthCode(m);
      TwoDigitsRoundTrip(k);
      TwoDigitsRoundTrip(m);
    }
  }

  /** A full month name, and its lower-case spelling, read back as the month's code. */
  lemma MonthNumberOfFullName(m: nat)
    requires 1 <= m <= 12
    ensures MonthNumber(MonthName(m)) == Some(MonthCodes[m - 1])
    ensures MonthNumber(Lower(MonthName(m))) == Some(MonthCodes[m - 1])
  {
    FoldedName(m);
    FoldedNameFolded(m - 1);
  }

  /** Every name that is no month's full name, in any letter case, gives None. */
  lemma MonthNumberNone(name: string)
    ensures MonthNumber(name).None? <==> forall m :: 1 <= m <= 12 ==> Lower(name) != Lower(MonthName(m))
  {
    forall m | 1 <= m <= 12 ensures Lower(MonthName(m)) == FoldedNames[m - 1] {
      FoldedName(m);
    }
    if MonthNumber(name).Some? {
      var m := MonthOf(name).value;
      assert Lower(name) == Lower(MonthName(m));
    }
  }
}
