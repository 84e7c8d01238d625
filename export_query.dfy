/** TempExportQueryData: the date check of buildDate, the conversion by
    java.sql.Date.valueOf it then makes, and the date_query field it sets. */
module ExportQuery {
  import opened Text

  /** A month as the pattern (1[0-2])|(0?[1-9]) takes it. */
  predicate IsMonthText(m: string) {
    || (|m| == 2 && m[0] == '1' && '0' <= m[1] <= '2')
    || (|m| == 2 && m[0] == '0' && '1' <= m[1] <= '9')
    || (|m| == 1 && '1' <= m[0] <= '9')
  }

  /** A day as \d{1,2} takes it: one or two ASCII digits. */
  predicate IsDayText(d: string) {
    1 <= |d| <= 2 && AllDigits(d)
  }

  /** The year as [1-9]{4} takes it: four digits none of which is 0. */
  predicate IsYearText(y: string) {
    |y| == 4 && forall i :: 0 <= i < 4 ==> '1' <= y[i] <= '9'
  }

  /** ^[1-9]{4}-((1[0-2])|(0?[1-9]))-\d{1,2}$ as a whole: a year, a dash, a
      month, a dash and a day; the month holds no dash, so its end is the
      second dash. */
  predicate IsDateText(s: string) {
    && |s| >= 5 && IsYearText(s[..4]) && s[4] == '-'
    && exists j :: 5 <= j < |s| && s[j] == '-' && IsMonthText(s[5..j]) && IsDayText(s[j + 1..])
  }

  /** The date as three parts joined by dashes. */
  function DateText(year: string, month: string, day: string): string {
    year + "-" + month + "-" + day
  }

  /** For dash-free parts, the accepted texts are exactly a year, a month
      and a day of the shapes above joined by dashes. */
  lemma DateTextParts(year: string, month: string, day: string)
    requires '-' !in year && '-' !in month && '-' !in day
    ensures IsDateText(DateText(year, month, day)) <==>
              IsYearText(year) && IsMonthText(month) && IsDayText(day)
  {
    var s := DateText(year, month, day);
    var m := 5 + |month|;
    if IsYearText(year) && IsMonthText(month) && IsDayText(day) {
      assert s[..4] == year && s[5..m] == month && s[m + 1..] == day;
    }
    if IsDateText(s) {
      DateTextSplits(year, month, day);
    }
  }

  /** The only dashes of a date built from dash-free parts are the two
      separators. */
  lemma DashesOfDateText(year: string, month: string, day: string, k: nat)
    requires '-' !in year && '-' !in month && '-' !in day
    requires k < |DateText(year, month, day)| && DateText(year, month, day)[k] == '-'
    ensures k == |year| || k == |year| + 1 + |month|
  {
    var s := DateText(year, month, day);
    var y := |year|;
    assert forall i :: 0 <= i < y ==> s[i] == year[i];
    assert forall i :: 0 <= i < |month| ==> s[y + 1 + i] == month[i];
    assert forall i :: 0 <= i < |day| ==> s[y + 2 + |month| + i] == day[i];
  }

  lemma DateTextSplits(year: string, month: string, day: string)
    requires '-' !in year && '-' !in month && '-' !in day
    requires IsDateText(DateText(year, month, day))
    ensures |year| == 4 && IsYearText(year) && IsMonthText(month) && IsDayText(day)
  {
    var s := DateText(year, month, day);
    var j :| 5 <= j < |s| && s[j] == '-' && IsMonthText(s[5..j]) && IsDayText(s[j + 1..]);
    var y := |year|;
    assert s[y] == '-';
    assert forall k :: 0 <= k < 4 ==> s[..4][k] == s[k] && s[k] != '-';
    DashesOfDateText(year, month, day, 4);
    DashesOfDateText(year, month, day, j);
    assert s[..4] == year;
    assert s[5..j] == month && s[j + 1..] == day;
  }

  /** The arguments java.sql.Date.valueOf passes on to the Date it builds:
      the year, the month (1 to 12) and the day of the month (1 to 31). */
  datatype DateFields = DateFields(year: int, month: int, day: int)

  /** java.sql.Date.valueOf: the text up to the first dash is the year and
      must be four characters long, the text up to the next dash the month
      and the rest the day, one or two characters each; the parts are read
      by Integer.parseInt, and the month must lie in 1..12 and the day in
      1..31 (whatever the month). Any other text throws
      IllegalArgumentException, here None. */
  function DateValueOf(s: string): (r: Option<DateFields>)
    ensures r.Some? ==> 1 <= r.value.month <= 12 && 1 <= r.value.day <= 31
  {
    var first := FindChar(s, '-', 0);
    if first == |s| then None
    else
      var second := FindChar(s, '-', first + 1);
      if first != 4 || second >= |s| - 1 then None
      else if !(1 <= second - first - 1 <= 2 && |s| - second - 1 <= 2) then None
      else
        var year := ParseInt(s[..first]);
        var month := ParseInt(s[first + 1..second]);
        var day := ParseInt(s[second + 1..]);
        if year.None? || month.None? || day.None? then None
        else if 1 <= month.value <= 12 && 1 <= day.value <= 31 then
          Some(DateFields(year.value, month.value, day.value))
        else None
  }

  /** An accepted month is made of digits and denotes 1 to 12. */
  lemma MonthTextValue(m: string)
    requires IsMonthText(m)
    ensures AllDigits(m) && 1 <= DigitsValue(m) <= 12
  {
    assert DigitsValue(m[..1]) == DigitValue(m[0]) by {
      assert m[..1][..0] == [];
    }
    if |m| == 2 {
      assert m[..|m| - 1] == m[..1];
    } else {
      assert m == m[..1];
    }
  }

  /** On text the pattern accepts, Date.valueOf succeeds exactly when the
      day denotes 1 to 31, and then yields the values of the three parts:
      the pattern lets through the days 0, 00 and 32 to 99, on which it
      throws. */
  lemma {:induction false} DateValueOfAccepted(year: string, month: string, day: string)
    requires IsYearText(year) && IsMonthText(month) && IsDayText(day)
    ensures AllDigits(year) && AllDigits(month)
    ensures DateValueOf(DateText(year, month, day)) ==
              if 1 <= DigitsValue(day) <= 31
              then Some(DateFields(DigitsValue(year), DigitsValue(month), DigitsValue(day)))
              else None
  {
    MonthTextValue(month);
    assert AllDigits(year) by {
      forall i | 0 <= i < |year| ensures IsDigit(year[i]) { }
    }
    var s := DateText(year, month, day);
    var m := 5 + |month|;
    assert forall k :: 0 <= k < 4 ==> s[k] == year[k] && s[k] != '-';
    FindFirst(s, '-', 0, 4);
    assert forall k :: 5 <= k < m ==> s[k] == month[k - 5] && s[k] != '-';
    FindFirst(s, '-', 5, m);
    assert s[..4] == year && s[5..m] == month && s[m + 1..] == day;
    ParseShortDigits(year);
    ParseShortDigits(month);
    ParseShortDigits(day);
  }

  /** The day 00 passes the pattern, and Date.valueOf throws on it. */
  lemma DayZeroPastThePattern()
    ensures IsDateText("1999-12-00") && DateValueOf("1999-12-00") == None
  {
    var s := DateText("1999", "12", "00");
    assert "1999-12-00" == s;
    DateTextParts("1999", "12", "00");
    DateValueOfAccepted("1999", "12", "00");
    assert DigitsValue("00") == 0 by { assert "00"[..1] == "0" && "0"[..0] == []; }
  }

  /** The day 32 passes the pattern, and Date.valueOf throws on it. */
  lemma DayThirtyTwoPastThePattern()
    ensures IsDateText("1999-12-32") && DateValueOf("1999-12-32") == None
  {
    var s := DateText("1999", "12", "32");
    assert "1999-12-32" == s;
    DateTextParts("1999", "12", "32");
    DateValueOfAccepted("1999", "12", "32");
    assert DigitsValue("32") == 32 by { assert "32"[..1] == "3" && "3"[..0] == []; }
  }

  /** 1999-2-31 passes both checks: the day is not compared with the
      month's length. */
  lemma FebruaryThirtyFirstPasses()
    ensures IsDateText("1999-2-31") && DateValueOf("1999-2-31") == Some(DateFields(1999, 2, 31))
  {
    var s := DateText("1999", "2", "31");
    assert "1999-2-31" == s;
    DateTextParts("1999", "2", "31");
    DateValueOfAccepted("1999", "2", "31");
    FebruaryValues();
  }

  /** The values of the parts of 1999-2-31. */
  lemma FebruaryValues()
    ensures DigitsValue("1999") == 1999 && DigitsValue("2") == 2 && DigitsValue("31") == 31
  {
    assert DigitsValue("31") == 31 by { assert "31"[..1] == "3" && "3"[..0] == []; }
    assert DigitsValue("2") == 2 by { assert "2"[..0] == []; }
    assert DigitsValue("1") == 1 by { assert "1"[..0] == []; }
    assert DigitsValue("19") == 19 by { assert "19"[..1] == "1"; }
    assert DigitsValue("199") == 199 by { assert "199"[..2] == "19"; }
    assert "1999"[..3] == "199";
  }

  /** A year with a 0 digit, such as 2024, is refused. */
  lemma ZeroDigitYearRefused()
    ensures !IsDateText("2024-01-05")
  {
    DateTextParts("2024", "01", "05");
    assert "2024-01-05" == DateText("2024", "01", "05");
    assert !IsYearText("2024") by { assert "2024"[1] == '0'; }
  }

  /** The months 0, 00 and 13 are refused. */
  lemma MonthOutOfRangeRefused()
    ensures !IsDateText("1999-0-05") && !IsDateText("1999-00-05") && !IsDateText("1999-13-05")
  {
    DateTextParts("1999", "0", "05");
    assert "1999-0-05" == DateText("1999", "0", "05");
    DateTextParts("1999", "00", "05");
    assert "1999-00-05" == DateText("1999", "00", "05");
    DateTextParts("1999", "13", "05");
    assert "1999-13-05" == DateText("1999", "13", "05");
  }

  /** Ordinary dates with non-zero year digits pass, with or without
      leading zeros in the month and day. */
  lemma OrdinaryDatesAccepted()
    ensures IsDateText("1999-12-31") && IsDateText("1111-1-1")
  {
    DateTextParts("1999", "12", "31");
    assert "1999-12-31" == DateText("1999", "12", "31");
    DateTextParts("1111", "1", "1");
    assert "1111-1-1" == DateText("1111", "1", "1");
  }

  /** The export query holder: the date of the last successful buildDate
      call, None (Java null) before any. */
  class TempExportQueryData {
    var dateQuery: Option<DateFields>

    constructor()
      ensures dateQuery == None
    {
      dateQuery := None;
    }

    /** buildDate: text the pattern refuses gives false and leaves the field
        alone; accepted text is converted by Date.valueOf, which throws
        (failed, no answer, the field left alone) on a day outside 1..31,
        and otherwise becomes the field's value, with the answer true. */
    method BuildDate(dateString: string) returns (validFormat: bool, failed: bool)
      modifies this
      ensures failed <==> IsDateText(dateString) && DateValueOf(dateString).None?
      ensures !failed ==> validFormat == IsDateText(dateString)
      ensures validFormat && !failed ==> dateQuery == DateValueOf(dateString) && dateQuery.Some?
      ensures !validFormat || failed ==> dateQuery == old(dateQuery)
    {
      validFormat, failed := IsDateText(dateString), false;
      if validFormat {
        var date := DateValueOf(dateString);
        if date.None? {
          return false, true;
        }
        dateQuery := date;
      }
    }
  }
}
