/** `get_ai_news` (ai_news_notifier.py:16-47): the request for the day
    before "now", and the articles taken from the response. The HTTP GET
    itself is outside the model: its outcome is an input, None when the
    request raised or the body was not JSON. */
module News {
  import opened Wrappers
  import opened Errors
  import opened Calendar
  import opened Decimal
  import opened Timestamps

  /** One record of the response's `articles` list. `content` and
      `description` are None when absent or null. */
  datatype Article = Article(title: string, url: string, publishedAt: string,
                             content: Option<string>, description: Option<string>)

  /** The query string of the request, without the API key. */
  datatype NewsQuery = NewsQuery(q: string, from: string, sortBy: string, language: string, pageSize: nat)

  /** `(datetime.now() - timedelta(days=1)).strftime('%Y-%m-%d')`. */
  function FromDate(now: DateTime): (r: Result<string, Crash>)
    requires ValidDateTime(now)
    ensures r.Err? <==> now.date == Date(1, 1, 1)
    ensures r.Err? ==> r.error == DateOverflow
  {
    match PrevDay(now.date)
    case None => Err(DateOverflow)
    case Some(y) => Ok(FormatDate(y))
  }

  /** The request of lines 24-30. */
  function NewsQueryFor(now: DateTime): (r: Result<NewsQuery, Crash>)
    requires ValidDateTime(now)
    ensures r.Err? <==> FromDate(now).Err?
    ensures r.Err? ==> r.error == DateOverflow
    ensures r.Ok? ==> r.value.from == FromDate(now).value
                      && r.value.q == "AI" && r.value.sortBy == "popularity"
                      && r.value.language == "en" && r.value.pageSize == 5
  {
    match FromDate(now)
    case Err(c) => Err(c)
    case Ok(from) => Ok(NewsQuery("AI", from, "popularity", "en", 5))
  }

  /** The articles `get_ai_news` returns: none when the request or the
      decoding failed, or when the response has no `articles`. */
  function ArticlesOf(response: Option<seq<Article>>): (r: seq<Article>)
    ensures response.None? ==> r == []
    ensures response.Some? ==> r == response.value
  {
    match response
    case None => []
    case Some(articles) => articles
  }

  /** The window starts on the calendar day whose ordinal is one less than
      that of the run's date. */
  lemma FromDateIsDayBefore(now: DateTime, y: Date)
    requires ValidDateTime(now) && ValidDate(y) && Ordinal(y) + 1 == Ordinal(now.date)
    ensures FromDate(now) == Ok(FormatDate(y))
  {
    var d := now.date;
    assert d != Date(1, 1, 1) by {
      OrdinalOrder(Date(1, 1, 1), y);
    }
    PrevDayOrdinal(d);
    OrdinalOrder(PrevDay(d).value, y);
  }

  /** The window starts the calendar day before the run, across the end of
      a month, of a year, and of February in a leap year. */
  lemma FromDateRollover(now: DateTime)
    requires ValidDateTime(now) && now.date.day == 1 && now.date != Date(1, 1, 1)
    ensures var d := now.date;
            FromDate(now) == Ok(FormatDate(
              if d.month == 1 then Date(d.year - 1, 12, 31)
              else if d.month == 3 && IsLeapYear(d.year) then Date(d.year, 2, 29)
              else if d.month == 3 then Date(d.year, 2, 28)
              else Date(d.year, d.month - 1, DaysInMonth(d.year, d.month - 1))))
  {
  }

  /** The leap day of 2024 is the window of a run on 2024-03-01. */
  lemma FromDateLeapDay()
    ensures FromDate(DateTime(Date(2024, 3, 1), 9, 30, 0)) == Ok("2024-02-29")
  {
    FromDateRollover(DateTime(Date(2024, 3, 1), 9, 30, 0));
    assert IsLeapYear(2024);
    assert FormatDate(Date(2024, 2, 29)) == Pad2(20) + Pad2(24) + "-" + Pad2(2) + "-" + Pad2(29);
    assert Pad2(20) == "20" && Pad2(24) == "24" && Pad2(2) == "02" && Pad2(29) == "29";
    assert "20" + "24" + "-" + "02" + "-" + "29" == "2024-02-29";
  }
}
