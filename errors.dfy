/** The exceptions that escape every handler in ai_news_notifier.py and end
    the run. Every other failure is caught where it happens. */
module Errors {

  datatype Crash =
    /** `timedelta` subtraction below 0001-01-01 raises OverflowError (line 20). */
    | DateOverflow
    /** A parsed summariser reply without the key raises KeyError (lines 98 and 103). */
    | MissingKey(key: string)
    /** `strptime` rejects the article's `publishedAt` with ValueError (line 108). */
    | BadTimestamp(text: string)
}
