/**
 * The tag-container version stamp: "D", then the year since 2010, a month
 * character that also carries the release revision of the day, and the day
 * of the month, each in base 36 and upper-cased. For example 24 March 2015
 * before 08:00 UTC is "D53O".
 *
 * Parsing the build date string is not modelled: the encoder takes the
 * fields a parsed `Date` yields, or `None` for a string that does not parse.
 */
module GenerateVersion {
  import opened Wrappers
  import opened Js

  /** Hours per revision band: at most three releases a day, eight hours apart. */
  const THIRD_OF_DAY := 8

  const INVALID_DATE := "Invalid date provided"

  /**
   * What the encoder reads off a parsed date: `getUTCFullYear()`,
   * `getUTCMonth()` (0 for January), `getDate()` (local time) and
   * `getUTCHours()`.
   */
  datatype DateFields = DateFields(utcFullYear: int, utcMonth: int, date: int, utcHours: int)

  /** The ranges a real `Date` gives these fields. */
  predicate WellFormed(d: DateFields)
  {
    0 <= d.utcMonth <= 11 && 1 <= d.date <= 31 && 0 <= d.utcHours <= 23
  }

  /** The years whose year field is a single base-36 digit. */
  predicate InFourCharacterEra(d: DateFields)
  {
    2010 <= d.utcFullYear <= 2045
  }

  /** `getDate().toString(36)`: one base-36 digit for any day of the month. */
  function DayField(d: DateFields): (r: string)
    ensures 0 <= d.date < 36 ==> r == [Digit(d.date)]
  {
    IntToString(d.date, 36)
  }

  /** `str.substr(str.length - 1)`. */
  function LastChar(s: string): (r: string)
    ensures |s| > 0 ==> r == [s[|s| - 1]]
    ensures |s| == 0 ==> r == ""
  {
    if |s| == 0 then "" else s[|s| - 1..]
  }

  /** `Math.floor(hours / 8)`: which third of the UTC day the date falls in. */
  function Revision(d: DateFields): (r: int)
    ensures 0 <= d.utcHours <= 23 ==> 0 <= r <= 2
    ensures 0 <= d.utcHours ==> r * THIRD_OF_DAY <= d.utcHours < (r + 1) * THIRD_OF_DAY
  {
    d.utcHours / THIRD_OF_DAY
  }

  /** The number the month field is the last base-36 digit of. */
  function MonthCode(d: DateFields): (c: int)
    ensures WellFormed(d) ==> 1 <= c <= 36
  {
    d.utcMonth + 1 + Revision(d) * 12
  }

  /** The last base-36 digit of the month code. */
  function MonthField(d: DateFields): (r: string)
    ensures |r| <= 1
    ensures WellFormed(d) ==> |r| == 1 && IsLowerAlnum(r[0])
  {
    LastChar(IntToString(MonthCode(d), 36))
  }

  /** `(getUTCFullYear() - 2010).toString(36)`: a single digit from 2010 to 2045, and signed before 2010. */
  function YearField(d: DateFields): (r: string)
    ensures InFourCharacterEra(d) ==> r == [Digit(d.utcFullYear - 2010)]
    ensures d.utcFullYear < 2010 ==> |r| >= 2 && r[0] == '-'
  {
    IntToString(d.utcFullYear - 2010, 36)
  }

  /** The exported encoder; `None` is a date string that does not parse, which throws. */
  function Generate(date: Option<DateFields>): (r: Result<string, string>)
    ensures r.Failure? <==> date.None?
    ensures r.Failure? ==> r.error == INVALID_DATE
    ensures r.Success? ==> |r.value| >= 4 && r.value[0] == 'D'
  {
    match date
    case None => Failure(INVALID_DATE)
    case Some(d) => Success(ToUpperCase("D" + YearField(d) + MonthField(d) + DayField(d)))
  }

  predicate IsUpperAlnum(c: char)
  {
    ('0' <= c <= '9') || ('A' <= c <= 'Z')
  }

  /** Upper-casing a base-36 digit loses nothing. */
  lemma UpperDigitInjective(a: nat, b: nat)
    requires a < 36 && b < 36
    requires UpperChar(Digit(a)) == UpperChar(Digit(b))
    ensures a == b
  {
  }

  /** The month field and the revision band share one character: month 12 in the last band is 36, written "10", so its character is "0". */
  lemma LastBandOfDecember(d: DateFields)
    requires d.utcMonth == 11 && 16 <= d.utcHours <= 23
    ensures IntToString(MonthCode(d), 36) == "10"
    ensures MonthField(d) == "0"
  {
    assert MonthCode(d) == 36;
    assert NatToString(36, 36) == NatToString(1, 36) + [Digit(0)];
  }

  /** A well-formed date's month field is one character, the base-36 digit of the month code modulo 36. */
  lemma MonthFieldDigit(d: DateFields)
    requires WellFormed(d)
    ensures MonthField(d) == [Digit(MonthCode(d) % 36)]
  {
    var c := MonthCode(d);
    if c == 36 {
      LastBandOfDecember(d);
    } else {
      assert c % 36 == c;
      assert IntToString(c, 36) == [Digit(c)];
    }
  }

  /** Distinct (month, revision) pairs give distinct month characters. */
  lemma MonthFieldInjective(d1: DateFields, d2: DateFields)
    requires WellFormed(d1) && WellFormed(d2)
    requires ToUpperCase(MonthField(d1)) == ToUpperCase(MonthField(d2))
    ensures d1.utcMonth == d2.utcMonth && Revision(d1) == Revision(d2)
  {
    MonthFieldDigit(d1);
    MonthFieldDigit(d2);
    assert ToUpperCase(MonthField(d1))[0] == ToUpperCase(MonthField(d2))[0];
    UpperDigitInjective(MonthCode(d1) % 36, MonthCode(d2) % 36);
    MonthCodeDetermines(d1, d2);
  }

  /** The month code modulo 36 determines the month and the revision band. */
  lemma MonthCodeDetermines(d1: DateFields, d2: DateFields)
    requires WellFormed(d1) && WellFormed(d2)
    requires MonthCode(d1) % 36 == MonthCode(d2) % 36
    ensures d1.utcMonth == d2.utcMonth && Revision(d1) == Revision(d2)
  {
    var c1, c2 := MonthCode(d1), MonthCode(d2);
    assert c1 == c2 by {
      assert c1 == 36 ==> c1 % 36 == 0;
      assert c2 == 36 ==> c2 % 36 == 0;
      assert c1 < 36 ==> c1 % 36 == c1;
      assert c2 < 36 ==> c2 % 36 == c2;
    }
    var r1, r2 := Revision(d1), Revision(d2);
    assert 0 <= r1 <= 2 && 0 <= r2 <= 2;
    assert r1 == r2;
  }

  /** The four characters of a stamp from the years 2010 to 2045. */
  lemma Fields(d: DateFields)
    requires WellFormed(d) && InFourCharacterEra(d)
    ensures YearField(d) == [Digit(d.utcFullYear - 2010)]
    ensures MonthField(d) == [Digit(MonthCode(d) % 36)]
    ensures DayField(d) == [Digit(d.date)]
    ensures Generate(Some(d)) == Success(
      ['D', UpperChar(Digit(d.utcFullYear - 2010)), UpperChar(Digit(MonthCode(d) % 36)), UpperChar(Digit(d.date))])
  {
    MonthFieldDigit(d);
    var y, m, day := d.utcFullYear - 2010, MonthCode(d) % 36, d.date;
    assert YearField(d) == [Digit(y)];
    assert DayField(d) == [Digit(day)];
    assert "D" + YearField(d) + MonthField(d) + DayField(d) == ['D', Digit(y), Digit(m), Digit(day)];
    UpperOfFour('D', Digit(y), Digit(m), Digit(day));
  }

  lemma UpperOfFour(a: char, b: char, c: char, e: char)
    ensures ToUpperCase([a, b, c, e]) == [UpperChar(a), UpperChar(b), UpperChar(c), UpperChar(e)]
  {
    var u := ToUpperCase([a, b, c, e]);
    assert u[0] == UpperChar(a) && u[1] == UpperChar(b) && u[2] == UpperChar(c) && u[3] == UpperChar(e);
  }

  /** From 2010 to 2045 the stamp is exactly four characters. */
  lemma FourCharacters(d: DateFields)
    requires WellFormed(d) && InFourCharacterEra(d)
    ensures Generate(Some(d)).Success? && |Generate(Some(d)).value| == 4
  {
    Fields(d);
  }

  lemma {:induction false} NatToStringIsAlnum(n: nat)
    ensures forall i :: 0 <= i < |ToUpperCase(NatToString(n, 36))| ==> IsUpperAlnum(ToUpperCase(NatToString(n, 36))[i])
  {
    var s := NatToString(n, 36);
    forall i | 0 <= i < |s| ensures IsUpperAlnum(UpperChar(s[i])) {
      assert IsLowerAlnum(s[i]);
    }
  }

  /** From 2010 on, the stamp is "D" followed only by digits and upper-case letters. */
  lemma Alphabet(d: DateFields)
    requires WellFormed(d) && d.utcFullYear >= 2010
    ensures Generate(Some(d)).Success?
    ensures var v := Generate(Some(d)).value;
      v[0] == 'D' && forall i :: 0 <= i < |v| ==> IsUpperAlnum(v[i])
  {
    MonthFieldDigit(d);
    assert AllLowerAlnum(MonthField(d));
    LowerAlnumConcat(YearField(d), MonthField(d));
    LowerAlnumConcat(YearField(d) + MonthField(d), DayField(d));
    UpperAfterD(YearField(d) + MonthField(d) + DayField(d));
  }

  predicate AllLowerAlnum(s: string)
  {
    forall i :: 0 <= i < |s| ==> IsLowerAlnum(s[i])
  }

  lemma LowerAlnumConcat(a: string, b: string)
    requires AllLowerAlnum(a) && AllLowerAlnum(b)
    ensures AllLowerAlnum(a + b)
  {
    forall i | 0 <= i < |a + b| ensures IsLowerAlnum((a + b)[i]) {
      if i >= |a| {
        assert (a + b)[i] == b[i - |a|];
      }
    }
  }

  /** Upper-casing "D" and base-36 digits gives "D" and digits or capitals. */
  lemma UpperAfterD(body: string)
    requires AllLowerAlnum(body)
    ensures var v := ToUpperCase("D" + body);
      v[0] == 'D' && forall i :: 0 <= i < |v| ==> IsUpperAlnum(v[i])
  {
    var v := ToUpperCase("D" + body);
    forall i | 0 <= i < |v| ensures IsUpperAlnum(v[i]) {
      if i > 0 {
        assert ("D" + body)[i] == body[i - 1];
        assert IsLowerAlnum(body[i - 1]);
      }
    }
  }

  /** The stamp determines the year, month, revision band and day of a date from 2010 to 2045. */
  lemma Injective(d1: DateFields, d2: DateFields)
    requires WellFormed(d1) && InFourCharacterEra(d1)
    requires WellFormed(d2) && InFourCharacterEra(d2)
    requires Generate(Some(d1)) == Generate(Some(d2))
    ensures d1.utcFullYear == d2.utcFullYear && d1.utcMonth == d2.utcMonth
    ensures d1.date == d2.date && Revision(d1) == Revision(d2)
  {
    Fields(d1);
    Fields(d2);
    UpperDigitInjective(d1.utcFullYear - 2010, d2.utcFullYear - 2010);
    UpperDigitInjective(MonthCode(d1) % 36, MonthCode(d2) % 36);
    UpperDigitInjective(d1.date, d2.date);
    MonthCodeDetermines(d1, d2);
  }

  /** The release of 24 March 2015 in the first eight hours (UTC) is stamped "D53O". */
  lemma WorkedExample(hours: int)
    requires 0 <= hours < 8
    ensures Generate(Some(DateFields(2015, 2, 24, hours))) == Success("D53O")
  {
    var d := DateFields(2015, 2, 24, hours);
    Fields(d);
    assert Digit(24) == 'o';
  }
}
