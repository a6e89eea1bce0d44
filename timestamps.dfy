/** The two date renderings of ai_news_notifier.py: `strftime('%Y-%m-%d')`
    for the news window and the digest header, and the footer's
    `strptime(publishedAt, '%Y-%m-%dT%H:%M:%SZ').strftime('%Y-%m-%d %H:%M')`.

    The parser follows CPython's `_strptime`: the format becomes a regular
    expression matched case-insensitively against the whole string, in which
    %Y is four digits, %m, %H, %M and %S are one or two digits in range, and
    %d may also be a space and a digit; the `datetime` constructor then
    rejects year 0, a day past the end of the month, and seconds 60 and 61. */
module Timestamps {
  import opened Wrappers
  import opened Decimal
  import opened Calendar

  /** `strftime('%Y-%m-%d')`. */
  function FormatDate(d: Date): string
    requires ValidDate(d)
  {
    Pad4(d.year) + "-" + Pad2(d.month) + "-" + Pad2(d.day)
  }

  /** The ten characters are the year, month and day in decimal, so distinct
      dates are rendered differently. */
  lemma FormatDateEncodes(d: Date)
    requires ValidDate(d)
    ensures var s := FormatDate(d);
            |s| == 10 && s[4] == '-' && s[7] == '-'
            && AllDigits(s[..4]) && AllDigits(s[5..7]) && AllDigits(s[8..])
            && Number(s[..4]) == d.year && Number(s[5..7]) == d.month && Number(s[8..]) == d.day
  {
    var s := FormatDate(d);
    assert s[..4] == Pad4(d.year) && s[5..7] == Pad2(d.month) && s[8..] == Pad2(d.day);
  }

  /** `strftime('%Y-%m-%d %H:%M')`: the seconds are dropped. */
  function FormatMinute(t: DateTime): string
    requires ValidDateTime(t)
  {
    FormatDate(t.date) + " " + Pad2(t.hour) + ":" + Pad2(t.minute)
  }

  /** The canonical `YYYY-MM-DDTHH:MM:SSZ` text of a timestamp. */
  function IsoTimestamp(t: DateTime): string
    requires ValidDateTime(t)
  {
    Joined(Fields(Pad4(t.date.year), Pad2(t.date.month), Pad2(t.date.day), 'T',
                  Pad2(t.hour), Pad2(t.minute), Pad2(t.second), 'Z'))
  }

  /** The texts of the six fields of a timestamp, and the two literal letters
      of the format as they occurred (either case matches). */
  datatype Fields = Fields(year: string, month: string, day: string, letterT: char,
                           hour: string, minute: string, second: string, letterZ: char)

  /** A field, the separator after it, and the rest of the text. */
  function Glue(field: string, sep: char, rest: string): string { field + [sep] + rest }

  function Joined(f: Fields): string {
    Glue(f.year, '-', Glue(f.month, '-', Glue(f.day, f.letterT, Glue(f.hour, ':', Glue(f.minute, ':', f.second + [f.letterZ])))))
  }

  /** A field in the regular expression holds digits, or for %d a space. */
  predicate FieldChars(s: string) { forall i :: 0 <= i < |s| ==> IsDigit(s[i]) || s[i] == ' ' }

  predicate WellShaped(f: Fields) {
    |f.year| == 4 && 1 <= |f.month| <= 2 && 1 <= |f.day| <= 2
    && 1 <= |f.hour| <= 2 && 1 <= |f.minute| <= 2 && 1 <= |f.second| <= 2
    && (f.letterT == 'T' || f.letterT == 't') && (f.letterZ == 'Z' || f.letterZ == 'z')
  }

  datatype Split = Split(field: string, sep: char, rest: string)

  /** Cuts a one- or two-character field off `s` at the separator `sep`
      (or its other case `alt`). Fields never contain a separator, so the
      regular expression can only match at the first separator. */
  function SplitField(s: string, sep: char, alt: char): (r: Option<Split>)
    ensures r.Some? ==> 1 <= |r.value.field| <= 2 && s == Glue(r.value.field, r.value.sep, r.value.rest)
    ensures r.Some? ==> r.value.sep == sep || r.value.sep == alt
  {
    if |s| >= 2 && (s[1] == sep || s[1] == alt) then
      assert s == s[..1] + [s[1]] + s[2..];
      Some(Split(s[..1], s[1], s[2..]))
    else if |s| >= 3 && (s[2] == sep || s[2] == alt) then
      assert s == s[..2] + [s[2]] + s[3..];
      Some(Split(s[..2], s[2], s[3..]))
    else None
  }

  /** Cuts `s` into the fields of the format, or None when no split fits. */
  function Tokenize(s: string): (r: Option<Fields>)
    ensures r.Some? ==> WellShaped(r.value) && Joined(r.value) == s
  {
    if |s| < 5 || s[4] != '-' then None
    else
      var m :- SplitField(s[5..], '-', '-');
      var d :- SplitField(m.rest, 'T', 't');
      var h :- SplitField(d.rest, ':', ':');
      var n :- SplitField(h.rest, ':', ':');
      var z :- LastField(n.rest);
      var f := Fields(s[..4], m.field, d.field, d.sep, h.field, n.field, z.0, z.1);
      JoinedOfSplits(s, f, m, d, h, n);
      Some(f)
  }

  /** The seconds field and the final `Z`. */
  function LastField(z: string): (r: Option<(string, char)>)
    ensures r.Some? ==> 1 <= |r.value.0| <= 2 && (r.value.1 == 'Z' || r.value.1 == 'z') && z == r.value.0 + [r.value.1]
  {
    if 2 <= |z| <= 3 && (z[|z| - 1] == 'Z' || z[|z| - 1] == 'z') then
      assert z == z[..|z| - 1] + [z[|z| - 1]];
      Some((z[..|z| - 1], z[|z| - 1]))
    else None
  }

  lemma JoinedOfSplits(s: string, f: Fields, m: Split, d: Split, h: Split, n: Split)
    requires |s| >= 5 && s[4] == '-' && f.year == s[..4]
    requires s[5..] == Glue(m.field, m.sep, m.rest) && m.sep == '-' && f.month == m.field
    requires m.rest == Glue(d.field, d.sep, d.rest) && f.day == d.field && f.letterT == d.sep
    requires d.rest == Glue(h.field, h.sep, h.rest) && h.sep == ':' && f.hour == h.field
    requires h.rest == Glue(n.field, n.sep, n.rest) && n.sep == ':' && f.minute == n.field
    requires n.rest == f.second + [f.letterZ]
    ensures Joined(f) == s
  {
    assert s == Glue(s[..4], '-', s[5..]);
  }

  /** The value of one field: one or two digits, or for %d a space and a
      digit, within `lo..hi`. */
  function FieldValue(f: string, lo: int, hi: int, spaced: bool): (r: Option<int>)
    ensures r.Some? ==> lo <= r.value <= hi
    ensures r.Some? ==>
              (1 <= |f| <= 2 && AllDigits(f) && r.value == Number(f))
              || (spaced && |f| == 2 && f[0] == ' ' && IsDigit(f[1]) && r.value == DigitValue(f[1]))
    ensures 1 <= |f| <= 2 && AllDigits(f) && lo <= Number(f) <= hi ==> r == Some(Number(f))
    ensures spaced && |f| == 2 && f[0] == ' ' && IsDigit(f[1]) && lo <= DigitValue(f[1]) <= hi ==>
              r == Some(DigitValue(f[1]))
  {
    var v :=
      if 1 <= |f| <= 2 && AllDigits(f) then Some(Number(f))
      else if spaced && |f| == 2 && f[0] == ' ' && IsDigit(f[1]) then Some(DigitValue(f[1]))
      else None;
    if v.Some? && lo <= v.value <= hi then v else None
  }

  /** Reads the field values and builds the `datetime`. */
  function Decode(f: Fields): (r: Option<DateTime>)
    ensures r.Some? ==> ValidDateTime(r.value)
  {
    if !AllDigits(f.year) then None
    else
      var month :- FieldValue(f.month, 1, 12, false);
      var day :- FieldValue(f.day, 1, 31, true);
      var hour :- FieldValue(f.hour, 0, 23, false);
      var minute :- FieldValue(f.minute, 0, 59, false);
      var second :- FieldValue(f.second, 0, 61, false);
      var t := DateTime(Date(Number(f.year), month, day), hour, minute, second);
      if ValidDateTime(t) then Some(t) else None
  }

  /** `datetime.strptime(s, '%Y-%m-%dT%H:%M:%SZ')`, None where it raises. */
  function ParseTimestamp(s: string): (r: Option<DateTime>)
    ensures r.Some? ==> ValidDateTime(r.value)
    ensures |s| < 15 || |s| > 20 ==> r.None?
  {
    var f :- Tokenize(s);
    Decode(f)
  }

  lemma SplitFieldOf(field: string, c: char, rest: string, sep: char, alt: char)
    requires 1 <= |field| <= 2 && FieldChars(field)
    requires (c == sep || c == alt) && sep != ' ' && alt != ' ' && !IsDigit(sep) && !IsDigit(alt)
    ensures SplitField(Glue(field, c, rest), sep, alt) == Some(Split(field, c, rest))
  {
    var s := Glue(field, c, rest);
    if |field| == 2 {
      assert s[1] == field[1];
      assert s[..2] == field && s[3..] == rest;
    } else {
      assert s[..1] == field && s[2..] == rest;
    }
  }

  /** Every well-shaped text made of field characters is cut back into the
      fields it was joined from. */
  lemma TokenizeJoined(f: Fields)
    requires WellShaped(f)
    requires FieldChars(f.year) && FieldChars(f.month) && FieldChars(f.day)
    requires FieldChars(f.hour) && FieldChars(f.minute) && FieldChars(f.second)
    ensures Tokenize(Joined(f)) == Some(f)
  {
    var s := Joined(f);
    var r4 := f.second + [f.letterZ];
    var r3 := Glue(f.minute, ':', r4);
    var r2 := Glue(f.hour, ':', r3);
    var r1 := Glue(f.day, f.letterT, r2);
    var r0 := Glue(f.month, '-', r1);
    assert s == Glue(f.year, '-', r0);
    assert s[..4] == f.year && s[4] == '-' && s[5..] == r0;
    SplitFieldOf(f.month, '-', r1, '-', '-');
    SplitFieldOf(f.day, f.letterT, r2, 'T', 't');
    SplitFieldOf(f.hour, ':', r3, ':', ':');
    SplitFieldOf(f.minute, ':', r4, ':', ':');
    assert r4[..|r4| - 1] == f.second;
  }

  /** Parsing the canonical text of a timestamp gives the timestamp back. */
  lemma ParseIsoRoundTrip(t: DateTime)
    requires ValidDateTime(t)
    ensures ParseTimestamp(IsoTimestamp(t)) == Some(t)
  {
    var f := Fields(Pad4(t.date.year), Pad2(t.date.month), Pad2(t.date.day), 'T',
                    Pad2(t.hour), Pad2(t.minute), Pad2(t.second), 'Z');
    DigitsAreFieldChars(f.year);
    DigitsAreFieldChars(f.month);
    DigitsAreFieldChars(f.day);
    DigitsAreFieldChars(f.hour);
    DigitsAreFieldChars(f.minute);
    DigitsAreFieldChars(f.second);
    TokenizeJoined(f);
    assert Tokenize(IsoTimestamp(t)) == Some(f);
    PaddedFieldValue(t.date.month, 1, 12, false);
    PaddedFieldValue(t.date.day, 1, 31, true);
    PaddedFieldValue(t.hour, 0, 23, false);
    PaddedFieldValue(t.minute, 0, 59, false);
    PaddedFieldValue(t.second, 0, 61, false);
    assert Decode(f) == Some(t);
  }

  lemma DigitsAreFieldChars(s: string)
    requires AllDigits(s)
    ensures FieldChars(s)
  {
  }

  lemma PaddedFieldValue(n: nat, lo: int, hi: int, spaced: bool)
    requires lo <= n <= hi < 100
    ensures FieldValue(Pad2(n), lo, hi, spaced) == Some(n)
  {
  }

  lemma FormatMinuteOf(t: DateTime, year: string, month: string, day: string, hour: string, minute: string)
    requires ValidDateTime(t)
    requires Pad4(t.date.year) == year && Pad2(t.date.month) == month && Pad2(t.date.day) == day
    requires Pad2(t.hour) == hour && Pad2(t.minute) == minute
    ensures FormatMinute(t) == year + "-" + month + "-" + day + " " + hour + ":" + minute
  {
  }

  lemma DecodedFields(f: Fields, t: DateTime)
    requires Decode(f) == Some(t)
    ensures AllDigits(f.year) && t.date.year == Number(f.year)
    ensures FieldValue(f.month, 1, 12, false) == Some(t.date.month)
    ensures FieldValue(f.day, 1, 31, true) == Some(t.date.day)
    ensures FieldValue(f.hour, 0, 23, false) == Some(t.hour)
    ensures FieldValue(f.minute, 0, 59, false) == Some(t.minute)
    ensures FieldValue(f.second, 0, 61, false) == Some(t.second)
  {
  }

  /** A 20-character text has two characters in every field. */
  lemma FullTimestampText(s: string, f: Fields)
    requires WellShaped(f) && Joined(f) == s && |s| == 20
    ensures |f.month| == 2 && |f.day| == 2 && |f.hour| == 2 && |f.minute| == 2 && |f.second| == 2
    ensures s[..10] == f.year + "-" + f.month + "-" + f.day && s[11..16] == f.hour + ":" + f.minute
    ensures s[8] == f.day[0]
  {
    var date := f.year + "-" + f.month + "-" + f.day;
    var clock := f.hour + ":" + f.minute;
    assert s == date + [f.letterT] + clock + ":" + f.second + [f.letterZ];
  }

  lemma TwoDigitField(f: string, lo: int, hi: int, spaced: bool)
    requires |f| == 2 && f[0] != ' ' && hi < 100 && FieldValue(f, lo, hi, spaced).Some?
    ensures AllDigits(f) && Pad2(FieldValue(f, lo, hi, spaced).value) == f
  {
    Pad2OfNumber(f);
  }

  /** Two-digit fields are the zero-padded renderings of the decoded values. */
  lemma DecodedPads(f: Fields, t: DateTime)
    requires Decode(f) == Some(t)
    requires |f.year| == 4 && |f.month| == 2 && |f.day| == 2 && |f.hour| == 2 && |f.minute| == 2 && f.day[0] != ' '
    ensures ValidDateTime(t)
    ensures Pad4(t.date.year) == f.year && Pad2(t.date.month) == f.month && Pad2(t.date.day) == f.day
    ensures Pad2(t.hour) == f.hour && Pad2(t.minute) == f.minute
  {
    DecodedFields(f, t);
    Pad4OfNumber(f.year);
    TwoDigitField(f.month, 1, 12, false);
    TwoDigitField(f.day, 1, 31, true);
    TwoDigitField(f.hour, 0, 23, false);
    TwoDigitField(f.minute, 0, 59, false);
  }

  lemma FooterOfFields(s: string, f: Fields, t: DateTime)
    requires WellShaped(f) && Joined(f) == s && Decode(f) == Some(t) && |s| == 20 && s[8] != ' '
    ensures ValidDateTime(t) && FormatMinute(t) == s[..10] + " " + s[11..16]
  {
    FullTimestampText(s, f);
    DecodedPads(f, t);
    FormatMinuteOf(t, f.year, f.month, f.day, f.hour, f.minute);
  }

  /** For a timestamp written out in full (two digits in every field), the
      footer's date and time are the first ten characters, a space, and the
      hours and minutes: only the seconds are dropped. */
  lemma FooterOfFullTimestamp(s: string)
    requires |s| == 20 && s[8] != ' '
    ensures ParseTimestamp(s).Some? ==> FormatMinute(ParseTimestamp(s).value) == s[..10] + " " + s[11..16]
  {
    match ParseTimestamp(s)
    case None =>
    case Some(t) =>
      var f := Tokenize(s).value;
      FooterOfFields(s, f, t);
  }

  /** Fields need not be padded: one-digit fields are read as their digit,
      and the footer pads them again. */
  lemma UnpaddedTimestamp()
    ensures ParseTimestamp("2024-1-5T1:2:3Z") == Some(DateTime(Date(2024, 1, 5), 1, 2, 3))
    ensures FormatMinute(DateTime(Date(2024, 1, 5), 1, 2, 3)) == "2024-01-05 01:02"
  {
    var f := UnpaddedFields();
    UnpaddedDecode(f);
    UnpaddedFooter();
  }

  lemma UnpaddedFields() returns (f: Fields)
    ensures f == Fields("2024", "1", "5", 'T', "1", "2", "3", 'Z')
    ensures Tokenize("2024-1-5T1:2:3Z") == Some(f)
  {
    f := Fields("2024", "1", "5", 'T', "1", "2", "3", 'Z');
    assert Joined(f) == "2024-1-5T1:2:3Z";
    TokenizeJoined(f);
  }

  lemma UnpaddedDecode(f: Fields)
    requires f == Fields("2024", "1", "5", 'T', "1", "2", "3", 'Z')
    ensures Decode(f) == Some(DateTime(Date(2024, 1, 5), 1, 2, 3))
  {
    NumberSnoc("202", '4');
    NumberSnoc("20", '2');
    NumberSnoc("2", '0');
    assert "2" + ['0'] == "20" && "20" + ['2'] == "202" && "202" + ['4'] == "2024";
    assert AllDigits(f.year) && Number(f.year) == 2024;
    OneDigitField('1', 1, 12, false);
    OneDigitField('5', 1, 31, true);
    OneDigitField('1', 0, 23, false);
    OneDigitField('2', 0, 59, false);
    OneDigitField('3', 0, 61, false);
  }

  lemma OneDigitField(c: char, lo: int, hi: int, spaced: bool)
    requires IsDigit(c) && lo <= DigitValue(c) <= hi
    ensures FieldValue([c], lo, hi, spaced) == Some(DigitValue(c))
  {
    assert [c][..0] == [];
    assert AllDigits([c]) && Number([c]) == 10 * Number([]) + DigitValue(c);
  }

  lemma UnpaddedFooter()
    ensures FormatMinute(DateTime(Date(2024, 1, 5), 1, 2, 3)) == "2024-01-05 01:02"
  {
    UnpaddedPads();
    FormatMinuteOf(DateTime(Date(2024, 1, 5), 1, 2, 3), "2024", "01", "05", "01", "02");
  }

  lemma UnpaddedPads()
    ensures Pad4(2024) == "2024" && Pad2(1) == "01" && Pad2(5) == "05" && Pad2(2) == "02"
  {
    assert Pad2(20) == "20" && Pad2(24) == "24";
  }
}
