/** The quarter label shown in the tooltip: "<year> Q<n>" derived from a dataset
    date string such as "2015-04-01". */
module Quarter {

  /** The string slice with non-negative bounds: both bounds are clamped to the
      string's length and a reversed or empty range gives the empty string. */
  function Slice(s: string, start: nat, end: nat): (r: string)
    ensures start < end && start < |s| ==> r == s[start..if end <= |s| then end else |s|]
    ensures end <= start || |s| <= start ==> r == ""
  {
    var from := if start <= |s| then start else |s|;
    var to := if end <= |s| then end else |s|;
    if from < to then s[from..to] else ""
  }

  /** getQuarter: the year is the first four characters, the month the characters
      at positions 5 and 6; "01", "04" and "07" are Q1 to Q3 and every other month,
      however short or odd, is Q4. */
  function GetQuarter(dateString: string): (text: string)
    ensures |text| == |Slice(dateString, 0, 4)| + 3
    ensures text[..|text| - 3] == Slice(dateString, 0, 4)
    ensures text[|text| - 3..|text| - 1] == " Q"
    ensures '1' <= text[|text| - 1] <= '4'
  {
    var year := Slice(dateString, 0, 4);
    var month := Slice(dateString, 5, 7);
    if month == "01" then year + " Q1"
    else if month == "04" then year + " Q2"
    else if month == "07" then year + " Q3"
    else year + " Q4"
  }

  /** The quarter digit of a label GetQuarter produced. */
  function QuarterDigit(text: string): char
    requires |text| > 0
  {
    text[|text| - 1]
  }

  /** For a date of at least seven characters the label is the first four
      characters, " Q" and the digit the month selects; each digit is chosen
      exactly by the month the switch lists for it, and Q4 by every other month. */
  lemma {:induction false} GetQuarterOfDate(s: string)
    requires |s| >= 7
    ensures GetQuarter(s)[..|GetQuarter(s)| - 1] == s[..4] + " Q"
    ensures QuarterDigit(GetQuarter(s)) == '1' <==> s[5..7] == "01"
    ensures QuarterDigit(GetQuarter(s)) == '2' <==> s[5..7] == "04"
    ensures QuarterDigit(GetQuarter(s)) == '3' <==> s[5..7] == "07"
    ensures QuarterDigit(GetQuarter(s)) == '4' <==> s[5..7] !in {"01", "04", "07"}
  {
    var text := GetQuarter(s);
    assert Slice(s, 0, 4) == s[..4];
    assert Slice(s, 5, 7) == s[5..7];
    assert text[..|text| - 1] == text[..|text| - 3] + text[|text| - 3..|text| - 1];
  }

  /** The calendar quarter of a month number, the reference the lookup is read against. */
  function CalendarQuarter(month: nat): (q: nat)
    requires 1 <= month <= 12
    ensures 1 <= q <= 4
    ensures (q - 1) * 3 < month <= q * 3
  {
    (month - 1) / 3 + 1
  }

  predicate IsDigit(c: char) { '0' <= c <= '9' }

  /** The value of a two-digit month field. */
  function MonthNumber(field: string): nat
    requires |field| == 2 && IsDigit(field[0]) && IsDigit(field[1])
  {
    (field[0] as int - '0' as int) * 10 + (field[1] as int - '0' as int)
  }

  /** The lookup agrees with the calendar exactly for the months that start a
      quarter and for November and December; for February, March, May, June, August
      and September it still says Q4. The lookup is only right because every date in
      the dataset is the first day of a quarter. */
  lemma {:induction false} GetQuarterAgreesWithCalendar(s: string)
    requires |s| >= 7 && IsDigit(s[5]) && IsDigit(s[6])
    requires 1 <= MonthNumber(s[5..7]) <= 12
    ensures var m := MonthNumber(s[5..7]);
      QuarterDigit(GetQuarter(s)) as int - '0' as int == CalendarQuarter(m)
      <==> m in {1, 4, 7, 10, 11, 12}
  {
    GetQuarterOfDate(s);
    var field := s[5..7];
    var m := MonthNumber(field);
    var d := QuarterDigit(GetQuarter(s));
    if field == "01" {
      assert m == 1 && d == '1';
    } else if field == "04" {
      assert m == 4 && d == '2';
    } else if field == "07" {
      assert m == 7 && d == '3';
    } else {
      assert d == '4';
    }
  }

  /** The whole label of a date long enough to hold a month. */
  lemma {:induction false} LabelOfDate(s: string)
    requires |s| >= 7
    ensures GetQuarter(s) == s[..4] + (if s[5..7] == "01" then " Q1"
                                       else if s[5..7] == "04" then " Q2"
                                       else if s[5..7] == "07" then " Q3"
                                       else " Q4")
  {
    assert Slice(s, 0, 4) == s[..4];
    assert Slice(s, 5, 7) == s[5..7];
  }

  /** The labels of the quarter starts the lookup lists, in any year. */
  lemma {:induction false} GetQuarterExamples(year: string)
    requires |year| == 4
    ensures GetQuarter(year + "-01-01") == year + " Q1"
    ensures GetQuarter(year + "-04-01") == year + " Q2"
    ensures GetQuarter(year + "-07-01") == year + " Q3"
  {
    assert GetQuarter(year + "-01-01") == year + " Q1" by {
      var s := year + "-01-01";
      LabelOfDate(s);
      assert s[..4] == year && s[5..7] == "01";
    }
    assert GetQuarter(year + "-04-01") == year + " Q2" by {
      var s := year + "-04-01";
      LabelOfDate(s);
      assert s[..4] == year && s[5..7] == "04";
    }
    assert GetQuarter(year + "-07-01") == year + " Q3" by {
      var s := year + "-07-01";
      LabelOfDate(s);
      assert s[..4] == year && s[5..7] == "07";
    }
  }

  /** The labels of months the lookup does not list, in any year: October and
      December, which are in the fourth quarter, and May, which is not but falls to
      the same Q4 default. */
  lemma {:induction false} GetQuarterDefaultExamples(year: string)
    requires |year| == 4
    ensures GetQuarter(year + "-10-01") == year + " Q4"
    ensures GetQuarter(year + "-12-01") == year + " Q4"
    ensures GetQuarter(year + "-05-01") == year + " Q4"
  {
    assert GetQuarter(year + "-10-01") == year + " Q4" by {
      var s := year + "-10-01";
      LabelOfDate(s);
      assert s[..4] == year && s[5..7] == "10";
    }
    assert GetQuarter(year + "-12-01") == year + " Q4" by {
      var s := year + "-12-01";
      LabelOfDate(s);
      assert s[..4] == year && s[5..7] == "12";
    }
    assert GetQuarter(year + "-05-01") == year + " Q4" by {
      var s := year + "-05-01";
      LabelOfDate(s);
      assert s[..4] == year && s[5..7] == "05";
    }
  }

  /** Dates too short to hold a two-character month are labelled Q4, with as much
      of the year as they have. */
  lemma {:induction false} GetQuarterShortDate(s: string)
    requires |s| < 7
    ensures GetQuarter(s) == (if |s| < 4 then s else s[..4]) + " Q4"
  {
    assert |Slice(s, 5, 7)| <= 1;
  }
}
