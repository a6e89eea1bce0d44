# AI News Notifier, modelled in Dafny

`ai_news_notifier.py` is a daily job with four steps:

1. It asks News API for five popular English articles about AI, published
   since yesterday.
2. It has each article summarised and labelled by a Groq-hosted language
   model.
3. It posts one Discord webhook message. The message has a dated header and
   one embed per article.
4. If no articles come back, it stops before summarising or posting
   anything.

This project models that job and proves what it does:

- **`main` (module `Notifier`).**
  - Article content selection.
  - The summarising loop, in order, with the Groq service as a class whose
    replies are an oracle.
  - The early exit when there is no news.
  - The single call to `send_to_discord`.
- **`summarize_and_categorize_with_groq` (module `Summarizer`).**
  - The fixed fallbacks for empty text and for any failure.
  - That the service is asked exactly when the text is non-empty.
- **`send_to_discord` (module `Digest`).**
  - Building the embeds and the payload, with the key lookups and the
    footer parse in Python's evaluation order. The first failure escapes
    before the POST.
  - The webhook as a class that records every payload posted to it.
- **`get_ai_news` (module `News`).**
  - The request for the day before the run.
  - The articles taken from the response.
- **Dates (modules `Calendar`, `Timestamps` and `Decimal`).**
  - The `datetime` arithmetic of "yesterday", on proleptic Gregorian
    ordinals.
  - `strftime('%Y-%m-%d')` and `strftime('%Y-%m-%d %H:%M')`.
  - `strptime(..., '%Y-%m-%dT%H:%M:%SZ')`, as CPython's `_strptime` accepts
    it:
    - the whole text must match;
    - `%Y` is four digits;
    - `%m`, `%H`, `%M` and `%S` are one or two digits in range, and `%d`
      may also be a space and a digit;
    - `T` and `Z` match in either case;
    - the `datetime` constructor then rejects year 0, days past the end of
      the month, and seconds 60 and 61.

Inputs the model takes as parameters:

- **The clock.** It is read twice: once for the news window (line 19) and
  once for the header (line 117). These are two `DateTime` parameters of
  `Notifier.Run`, so a run that crosses midnight is covered.
- **The GET.** Its outcome is an `Option<seq<Article>>`, `None` when the
  request or the JSON decoding failed.
- **The Groq service.** `Summarizer.Groq.answer(k)` is its reply to the
  k-th request. `prompts` logs the requests attempted.
- **The webhook.** `Digest.Webhook.posts` logs what was posted.

Exceptions that escape `main` are the `Notifier.Outcome` `Crashed`, with
the `Errors.Crash` that caused them:

- a missing `summary` or `category` key (a `KeyError`);
- an unparsable `publishedAt` (a `ValueError`);
- "yesterday" of 0001-01-01 (an `OverflowError`).

Three details of the code the model keeps:

- No timezone conversion happens: `datetime.now()` is naive local time.
- The category labels are the five Japanese labels of the prompt.
- The header date comes from a second clock reading, not from the fetch
  date.

## Model

| member | source | states |
|---|---|---|
| `Calendar.DaysInMonth` | ai_news_notifier.py:20 | a month has 28 to 31 days, and 29 exactly for February of a leap year |
| `Calendar.PrevDay` | ai_news_notifier.py:20 | `today - timedelta(days=1)` fails exactly on 0001-01-01 and otherwise yields a valid date |
| `Calendar.PrevDayOrdinal` | ai_news_notifier.py:20 | the day before is numbered exactly one less than the day |
| `Calendar.OrdinalOrder` | ai_news_notifier.py:20 | ordinal numbering agrees with calendar order in both directions, and distinct dates get distinct ordinals |
| `Calendar.PrevDayIsLatestEarlier` | ai_news_notifier.py:19-20 | the day before is earlier than the run date, and every earlier valid date is it or before it |
| `Decimal.Pad2` | ai_news_notifier.py:21 | `%m`/`%d`/`%H`/`%M` rendering: two decimal digits whose value is the number |
| `Decimal.Pad4` | ai_news_notifier.py:21 | `%Y` rendering: four decimal digits whose value is the year |
| `Decimal.Pad2OfNumber` | ai_news_notifier.py:108 | two digits are the padded rendering of their own value (rendering inverts reading) |
| `Decimal.Pad4OfNumber` | ai_news_notifier.py:108 | four digits are the padded rendering of their own value |
| `Timestamps.FormatDate` | ai_news_notifier.py:21 | `strftime('%Y-%m-%d')`; specified by `Timestamps.FormatDateEncodes` (the ten characters and their digit groups) and `News.FromDateLeapDay` (a concrete rendering) |
| `Timestamps.FormatMinute` | ai_news_notifier.py:108 | `strftime('%Y-%m-%d %H:%M')`; specified by `Timestamps.FooterOfFullTimestamp` (the date part, a space, hours and minutes of a full timestamp whose day has no leading space) and `Timestamps.UnpaddedTimestamp` (unpadded fields padded again) |
| `Timestamps.FormatDateEncodes` | ai_news_notifier.py:21 | `%Y-%m-%d` is ten characters with dashes at 4 and 7, and its digit groups read back as the year, month and day |
| `Timestamps.SplitField` | ai_news_notifier.py:108 | a field of the regular expression is one or two characters ending at a separator of the format, and the text is its exact concatenation |
| `Timestamps.Tokenize` | ai_news_notifier.py:108 | a match cuts the whole text into well-shaped fields that join back to it exactly (no unconverted data) |
| `Timestamps.LastField` | ai_news_notifier.py:108 | the seconds are one or two characters followed by the final `Z` or `z`, ending the text |
| `Timestamps.FieldValue` | ai_news_notifier.py:108 | an accepted field lies within its directive's range and is either one or two digits read as their decimal number or, for `%d`, a space and a digit read as that digit; conversely every field of either shape within the range is accepted with that value |
| `Timestamps.Decode` | ai_news_notifier.py:108 | the `datetime` is built only from valid values |
| `Timestamps.ParseTimestamp` | ai_news_notifier.py:108 | `strptime` yields only valid timestamps and rejects every text shorter than 15 or longer than 20 characters |
| `Timestamps.TokenizeJoined` | ai_news_notifier.py:108 | any well-shaped joining of field texts made of digits and spaces is cut back into exactly those fields |
| `Timestamps.ParseIsoRoundTrip` | ai_news_notifier.py:108 | parsing the canonical `YYYY-MM-DDTHH:MM:SSZ` text of a timestamp gives the timestamp back |
| `Timestamps.FooterOfFields` | ai_news_notifier.py:108 | for two-character fields whose day is not written as a space and a digit (`s[8] != ' '`), the reformatted text is the date part, a space, and hours and minutes of the input |
| `Timestamps.FooterOfFullTimestamp` | ai_news_notifier.py:108 | for a parsable 20-character timestamp whose day is not written as a space and a digit (`s[8] != ' '`), `%Y-%m-%d %H:%M` is its first ten characters, a space, and characters 11-15: only the seconds and the letters go |
| `Timestamps.OneDigitField` | ai_news_notifier.py:108 | a one-digit field within range is read as its digit |
| `Timestamps.UnpaddedTimestamp` | ai_news_notifier.py:108 | `2024-1-5T1:2:3Z` is accepted as 2024-01-05 01:02:03, and its footer time is `2024-01-05 01:02` |
| `Summarizer.SummaryFor` | ai_news_notifier.py:52-86 | the fallback decision on a reply; specified by `Summarizer.SummaryOutcomes`, `Summarizer.CategoriesAreClosed` and `Summarizer.SummaryHasBothKeys` |
| `Summarizer.SummaryOutcomes` | ai_news_notifier.py:52-86 | empty text gives the empty-content fallback, a raised call or a failed JSON parse gives the error fallback, and a parsed reply is returned as is |
| `Summarizer.CategoriesAreClosed` | ai_news_notifier.py:53-86 | when the service keeps to the listed labels and gives both keys, every category is a label or one of the two sentinels, which are not labels |
| `Summarizer.SummaryHasBothKeys` | ai_news_notifier.py:52-86 | both fallbacks carry both keys, so only a parsed reply can lack one |
| `Summarizer.Groq.constructor` | ai_news_notifier.py:57 | a client with the given replies and nothing sent yet |
| `Summarizer.Groq.Complete` | ai_news_notifier.py:58-83 | one request: the text is appended to the log, and its reply is the one for the next request number |
| `Summarizer.Summarize` | ai_news_notifier.py:50-86 | the service is sent the text exactly when it is non-empty, and the result is the fallback policy applied to that request's reply |
| `Digest.Footer` | ai_news_notifier.py:107-109 | the footer is the prefix and the reformatted time, and fails with the timestamp error exactly when `strptime` raises |
| `Digest.EmbedFor` | ai_news_notifier.py:95-110 | the embed of one article or its first exception; specified by `Digest.EmbedContents` |
| `Digest.EmbedContents` | ai_news_notifier.py:95-110 | an embed exists exactly when both keys are present and the time parses; it holds the marked title, the url, the summary, the colour, the backquoted category field and the footer |
| `Digest.EmbedsFor` | ai_news_notifier.py:93-111 | the embed loop's outcome; specified by `Digest.EmbedsSucceed`, `Digest.EmbedsInOrder` and `Digest.EmbedsStopAtFirstFailure`, and computed by `Digest.BuildEmbeds` |
| `Digest.EmbedsSucceed` | ai_news_notifier.py:93-111 | the embed loop completes exactly when every article has an embed |
| `Digest.EmbedsInOrder` | ai_news_notifier.py:93-111 | a completed loop yields one embed per article, in article order |
| `Digest.EmbedsStopAtFirstFailure` | ai_news_notifier.py:93-111 | a failed loop raises the exception of the first article without an embed, all earlier ones having had one |
| `Digest.BuildEmbeds` | ai_news_notifier.py:93-111 | the loop's result is the embed list of the whole input, or the first exception |
| `Digest.Header` | ai_news_notifier.py:117 | the message text; specified by `Digest.HeaderHoldsRunDate` |
| `Digest.HeaderHoldsRunDate` | ai_news_notifier.py:117 | the message text is the fixed title followed by the run date `YYYY-MM-DD` in parentheses |
| `Digest.MakePayload` | ai_news_notifier.py:114-119 | the payload with the fixed username and avatar, the header and the embeds; specified by `Digest.DigestOf` and `Notifier.EveryArticleGetsAnEmbed` |
| `Digest.DigestOf` | ai_news_notifier.py:93-119 | the payload built from all embeds, or the first exception; what `Digest.SendToDiscord` posts, specified by `Notifier.EveryArticleGetsAnEmbed` and the embed-loop lemmas |
| `Digest.Webhook.constructor` | ai_news_notifier.py:122 | a webhook that nothing was posted to yet |
| `Digest.Webhook.Post` | ai_news_notifier.py:122 | a POST appends exactly its payload to what the webhook received |
| `Digest.SendToDiscord` | ai_news_notifier.py:88-126 | exactly one POST with the digest when every embed can be built, and no POST and an escaping exception otherwise |
| `News.FromDate` | ai_news_notifier.py:19-21 | the window date fails with the overflow exactly on 0001-01-01 |
| `News.NewsQueryFor` | ai_news_notifier.py:24-30 | the request asks for `AI`, from the window date, by popularity, in English, five articles, and fails exactly when the window date does |
| `News.ArticlesOf` | ai_news_notifier.py:32-47 | a failed request or decoding gives no articles, and otherwise the response's articles |
| `News.FromDateIsDayBefore` | ai_news_notifier.py:19-21 | the window is the `%Y-%m-%d` text of the date numbered one before the run date |
| `News.FromDateRollover` | ai_news_notifier.py:19-21 | on the first of a month the window is the last day of the previous month, the 31st of December across a year, and the 29th of February in a leap year |
| `News.FromDateLeapDay` | ai_news_notifier.py:19-21 | a run on 2024-03-01 asks for news from 2024-02-29 |
| `Notifier.ContentToSummarize` | ai_news_notifier.py:139 | the text to summarise; specified by `Notifier.ContentSelection` |
| `Notifier.ContentSelection` | ai_news_notifier.py:139 | the content when present and non-empty, otherwise the description, otherwise the empty text |
| `Notifier.Prompts` | ai_news_notifier.py:136-140 | the texts the loop sends the service; specified by `Notifier.PromptsAreNonEmpty`, `Notifier.PromptsOfPrefix` and `Notifier.RequestOfArticle`, and produced by `Notifier.EnrichArticles` |
| `Notifier.PromptsAreNonEmpty` | ai_news_notifier.py:137-140 | the service is never sent an empty text, and at most one text per article |
| `Notifier.PromptsOfPrefix` | ai_news_notifier.py:137-140 | the texts sent for the first articles are a prefix of those sent for all of them |
| `Notifier.RequestOfArticle` | ai_news_notifier.py:137-140 | the request about an article with text carries its text and comes after those of all earlier articles and before those of all later ones |
| `Notifier.Enrichment` | ai_news_notifier.py:136-149 | `articles_with_summaries` after the loop; specified by `Notifier.EnrichmentAt` and `Notifier.EnrichmentInOrder`, and produced by `Notifier.EnrichArticles` |
| `Notifier.EnrichOne` | ai_news_notifier.py:143-148 | the article's title, url and publishedAt with the summariser's result; specified by `Notifier.EnrichmentAt` |
| `Notifier.EnrichmentAt` | ai_news_notifier.py:143-149 | record i copies article i's title, url and time and holds the summariser's result for the request about article i |
| `Notifier.EnrichmentInOrder` | ai_news_notifier.py:136-149 | one record per article, in order, each as stated for `EnrichmentAt`, so a failed summary changes only its own record |
| `Notifier.EveryArticleGetsAnEmbed` | ai_news_notifier.py:136-152 | when every time parses and every parsed reply has both keys, the digest has the dated header and one embed per article in order, with the article's title and its summary, fallbacks included |
| `Notifier.EnrichArticles` | ai_news_notifier.py:136-149 | the loop yields the records of `Enrichment` and sends the service exactly the non-empty texts, in article order |
| `Notifier.Run` | ai_news_notifier.py:128-153 | the window date's overflow crashes before anything is sent; no articles ends the run with nothing summarised or posted; otherwise every non-empty text is summarised once in order, then the digest is posted once or the first escaping exception is the outcome with nothing posted |

## Left out

- Environment variables and the `ValueError` raised at import time when one is missing (lines 8-14): configuration, not behaviour of the job.
- The API key in the query string (line 30): a secret. `News.NewsQuery` has every other parameter.
- The HTTP GET and POST, `raise_for_status` and the status of the POST: I/O. The GET's outcome is an input. The POST's failure only changes what is printed, so `Digest.Webhook.Post` always appends.
- Every `print`: console output only.
- The Groq client's prompt wording, model name and sampling parameters (lines 57-81): they shape the reply, which is an oracle here.
- JSON values of other types: a reply that decodes to a non-object, a `summary` or `category` that is not a string, and a response whose `news_data` is not an object. These would raise a `TypeError` or `AttributeError`, or be rendered by `str()`. The model's JSON values are objects with optional string keys.
- A missing or null `title`, `url` or `publishedAt` on a fetched article (the `KeyError` at lines 144-146, a `TypeError` in `strptime`): articles always carry these three strings.
- Microseconds of `datetime.now()`: they never reach any output.
- Timestamps.ParseTimestamp: does not model the non-ASCII Unicode digits that Python's `\d` also accepts, because the model's digits are `0`-`9`.
- Timestamps.FormatDate: pads years below 1000 to four digits, because C-library `strftime('%Y')` is platform-dependent there.
- Calendar.PrevDay: only "yesterday" is modelled, not general `timedelta` arithmetic, because it is the only date arithmetic the job does.
