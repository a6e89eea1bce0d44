/** `summarize_and_categorize_with_groq` (ai_news_notifier.py:50-86): the
    fixed fallbacks around one request to the text-generation service.

    The service is a class: `answer(k)` is the reply it gives to the k-th
    request of the run (0-based), and `prompts` records the article texts it
    was sent. Any behaviour of the real service, including its randomness,
    is one choice of `answer`, because the texts it is sent are fixed by the
    articles. The prompt wording and the model parameters are not modelled. */
module Summarizer {
  import opened Wrappers

  /** The parsed JSON object of a reply, as a dictionary whose two keys of
      interest may be absent. */
  datatype SummaryData = SummaryData(summary: Option<string>, category: Option<string>)

  /** What one request yields: an exception from the client (network,
      quota, a reply without content), or its text run through
      `json.loads`, None where that raises. */
  datatype Reply = Raised | Returned(parsed: Option<SummaryData>)

  const EmptySummary: string := "記事の内容が空のため、要約できませんでした。"
  const UnknownCategory: string := "不明"
  const ErrorSummary: string := "要約中にエラーが発生しました。"
  const ErrorCategory: string := "エラー"

  /** The five labels the service is instructed to choose from. */
  const Categories: set<string> := {"技術開発", "ビジネス応用", "倫理・規制", "研究", "その他"}

  /** The result for text that is empty, without asking the service. */
  const EmptyFallback: SummaryData := SummaryData(Some(EmptySummary), Some(UnknownCategory))

  /** The result substituted for any failure of the request or the parse. */
  const ErrorFallback: SummaryData := SummaryData(Some(ErrorSummary), Some(ErrorCategory))

  /** The summariser's result for `content`, given the reply the service
      would give to this request; the reply is not consulted when the text
      is empty. */
  function SummaryFor(content: string, reply: Reply): (d: SummaryData)
  {
    if content == "" then EmptyFallback
    else match reply
      case Raised => ErrorFallback
      case Returned(None) => ErrorFallback
      case Returned(Some(parsed)) => parsed
  }

  /** The three outcomes of the summariser, and nothing else: the empty-text
      fallback, the error fallback for any failure, or the parsed reply. */
  lemma SummaryOutcomes(content: string, reply: Reply)
    ensures content == "" ==> SummaryFor(content, reply) == EmptyFallback
    ensures content != "" && (reply.Raised? || reply.parsed.None?) ==> SummaryFor(content, reply) == ErrorFallback
    ensures content != "" && reply.Returned? && reply.parsed.Some? ==> SummaryFor(content, reply) == reply.parsed.value
  {
  }

  /** A service that answers with both keys and a listed label leaves every
      result with both keys and a category that is a label or one of the
      two sentinels, and the sentinels are not labels. */
  lemma CategoriesAreClosed(content: string, reply: Reply)
    requires reply.Returned? && reply.parsed.Some? ==>
               reply.parsed.value.summary.Some? && reply.parsed.value.category.Some?
               && reply.parsed.value.category.value in Categories
    ensures SummaryFor(content, reply).summary.Some?
    ensures SummaryFor(content, reply).category.Some?
    ensures SummaryFor(content, reply).category.value in Categories + {UnknownCategory, ErrorCategory}
    ensures UnknownCategory !in Categories && ErrorCategory !in Categories
  {
  }

  /** A reply that, when it parses, has both keys. */
  predicate KeepsBothKeys(reply: Reply) {
    reply.Returned? && reply.parsed.Some? ==>
      reply.parsed.value.summary.Some? && reply.parsed.value.category.Some?
  }

  /** Both fallbacks have both keys, so only a parsed reply can lack one. */
  lemma SummaryHasBothKeys(content: string, reply: Reply)
    requires KeepsBothKeys(reply)
    ensures SummaryFor(content, reply).summary.Some? && SummaryFor(content, reply).category.Some?
  {
  }

  /** The text-generation service. */
  class Groq {
    const answer: nat -> Reply
    var prompts: seq<string>

    constructor (answer: nat -> Reply)
      ensures this.answer == answer && prompts == []
    {
      this.answer := answer;
      prompts := [];
    }

    /** One chat-completion request about `content`, with its reply parsed. */
    method Complete(content: string) returns (reply: Reply)
      modifies this
      ensures prompts == old(prompts) + [content]
      ensures reply == answer(|old(prompts)|)
    {
      reply := answer(|prompts|);
      prompts := prompts + [content];
    }
  }

  /** `summarize_and_categorize_with_groq`: the service is asked exactly when
      the text is non-empty, and the result is `SummaryFor` of its reply. */
  method Summarize(content: string, groq: Groq) returns (d: SummaryData)
    modifies groq
    ensures content == "" ==> groq.prompts == old(groq.prompts)
    ensures content != "" ==> groq.prompts == old(groq.prompts) + [content]
    ensures d == SummaryFor(content, groq.answer(|old(groq.prompts)|))
  {
    if content == "" {
      return EmptyFallback;
    }
    var reply := groq.Complete(content);
    match reply
    case Raised =>
      d := ErrorFallback;
    case Returned(None) =>
      d := ErrorFallback;
    case Returned(Some(parsed)) =>
      d := parsed;
  }
}
