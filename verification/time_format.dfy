/**
  Rendering of a civil time with the Go layout "2006-01-02 15:04:05": a
  four-digit year, two-digit month and day, 24-hour clock, whole seconds and
  no zone. The instant-to-civil conversion happens before this point.
 */
module TimeFormat {
  import opened Decimal
  import opened GoStrings

  /** The fields `time.Time.Date` and `time.Time.Clock` report. */
  datatype CivilTime = CivilTime(year: int, month: int, day: int, hour: int, minute: int, second: int)

  /** The ranges a Go time's civil fields always lie in. */
  predicate Valid(t: CivilTime) {
    && 1 <= t.month <= 12
    && 1 <= t.day <= 31
    && 0 <= t.hour < 24
    && 0 <= t.minute < 60
    && 0 <= t.second < 60
  }

  /** The layout, written as Go's reference time. */
  const Layout: string := "2006-01-02 15:04:05"

  /** Digits where the layout has digits, its punctuation everywhere else. */
  predicate HasLayoutShape(s: string) {
    && |s| == |Layout|
    && AllDigits(s[0..4]) && s[4] == '-'
    && AllDigits(s[5..7]) && s[7] == '-'
    && AllDigits(s[8..10]) && s[10] == ' '
    && AllDigits(s[11..13]) && s[13] == ':'
    && AllDigits(s[14..16]) && s[16] == ':'
    && AllDigits(s[17..19])
  }

  /** `t.Format("2006-01-02 15:04:05")`: the date, a space, the clock. For a
      valid time with a year of at most four digits, the rendering has the
      layout's shape and reads back as the same time. */
  function Format(t: CivilTime): (s: string)
    ensures Valid(t) && 0 <= t.year <= 9999 ==> HasLayoutShape(s) && Parse(s) == t
  {
    var s := DatePart(t) + " " + ClockPart(t);
    assert Valid(t) && 0 <= t.year <= 9999 ==> HasLayoutShape(s) && Parse(s) == t by {
      if Valid(t) && 0 <= t.year <= 9999 {
        PartsReadBack(t);
      }
    }
    s
  }

  function DatePart(t: CivilTime): string {
    Concat3(PadInt(t.year, 4), '-', PadInt(t.month, 2), '-', PadInt(t.day, 2))
  }

  function ClockPart(t: CivilTime): string {
    Concat3(PadInt(t.hour, 2), ':', PadInt(t.minute, 2), ':', PadInt(t.second, 2))
  }

  /** Reads back a string of the layout's shape. */
  function Parse(s: string): CivilTime
    requires HasLayoutShape(s)
  {
    CivilTime(ParseDigits(s[0..4]), ParseDigits(s[5..7]), ParseDigits(s[8..10]),
              ParseDigits(s[11..13]), ParseDigits(s[14..16]), ParseDigits(s[17..19]))
  }

  /** A field below 10^width renders as exactly `width` digits that read back. */
  lemma FieldFits(x: int, width: nat)
    requires 0 <= x && 0 < width && x < Pow10(width)
    ensures |PadInt(x, width)| == width
    ensures AllDigits(PadInt(x, width)) && ParseDigits(PadInt(x, width)) == x
  {
  }

  lemma DateFields(t: CivilTime)
    requires Valid(t) && 0 <= t.year <= 9999
    ensures var d := DatePart(t);
      && |d| == 10
      && d[..4] == PadInt(t.year, 4) && d[4] == '-'
      && d[5..7] == PadInt(t.month, 2) && d[7] == '-'
      && d[8..] == PadInt(t.day, 2)
  {
    assert Pow10(4) == 10000 && Pow10(2) == 100;
    FieldFits(t.year, 4);
    FieldFits(t.month, 2);
    FieldFits(t.day, 2);
    Concat3Fields(PadInt(t.year, 4), '-', PadInt(t.month, 2), '-', PadInt(t.day, 2));
  }

  lemma ClockFields(t: CivilTime)
    requires Valid(t)
    ensures var c := ClockPart(t);
      && |c| == 8
      && c[..2] == PadInt(t.hour, 2) && c[2] == ':'
      && c[3..5] == PadInt(t.minute, 2) && c[5] == ':'
      && c[6..] == PadInt(t.second, 2)
  {
    assert Pow10(2) == 100;
    FieldFits(t.hour, 2);
    FieldFits(t.minute, 2);
    FieldFits(t.second, 2);
    Concat3Fields(PadInt(t.hour, 2), ':', PadInt(t.minute, 2), ':', PadInt(t.second, 2));
  }

  /** The date, a space and the clock of a valid time with a year of at most
      four digits form a string of the layout's shape that reads back. */
  lemma PartsReadBack(t: CivilTime)
    requires Valid(t) && 0 <= t.year <= 9999
    ensures HasLayoutShape(DatePart(t) + " " + ClockPart(t))
    ensures Parse(DatePart(t) + " " + ClockPart(t)) == t
  {
    assert Pow10(4) == 10000 && Pow10(2) == 100;
    FieldFits(t.year, 4);
    FieldFits(t.month, 2);
    FieldFits(t.day, 2);
    FieldFits(t.hour, 2);
    FieldFits(t.minute, 2);
    FieldFits(t.second, 2);
    DateFields(t);
    ClockFields(t);
    var date, clock := DatePart(t), ClockPart(t);
    var s := date + " " + clock;
    assert s[..10] == date && s[10] == ' ' && s[11..] == clock;
    assert s[0..4] == date[..4];
    assert s[5..7] == date[5..7];
    assert s[8..10] == date[8..];
    assert s[11..13] == clock[..2];
    assert s[14..16] == clock[3..5];
    assert s[17..19] == clock[6..];
  }

  /** Distinct valid times in the years 0 to 9999 render differently. */
  lemma FormatInjective(t: CivilTime, u: CivilTime)
    requires Valid(t) && 0 <= t.year <= 9999
    requires Valid(u) && 0 <= u.year <= 9999
    requires Format(t) == Format(u)
    ensures t == u
  {
  }

  /** Go's reference time, rendered with the layout, is the layout itself. */
  lemma ReferenceTimeRendersLayout()
    ensures Format(CivilTime(2006, 1, 2, 15, 4, 5)) == Layout
  {
    ReferenceDate();
    ReferenceClock();
  }

  lemma ReferenceDate()
    ensures DatePart(CivilTime(2006, 1, 2, 15, 4, 5)) == "2006-01-02"
  {
    assert PadInt(2006, 4) == "2006";
    assert PadInt(1, 2) == "01";
    assert PadInt(2, 2) == "02";
  }

  lemma ReferenceClock()
    ensures ClockPart(CivilTime(2006, 1, 2, 15, 4, 5)) == "15:04:05"
  {
    assert PadInt(15, 2) == "15";
    assert PadInt(4, 2) == "04";
    assert PadInt(5, 2) == "05";
  }
}
