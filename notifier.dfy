/** `main` (ai_news_notifier.py:128-153): fetch, summarise every article in
    order, and send one digest; the run ends early when there is no news. */
module Notifier {
  import opened Wrappers
  import opened Errors
  import opened Calendar
  import opened Timestamps
  import opened News
  import opened Summarizer
  import opened Digest

  /** `article.get('content') or article.get('description', '')`: the
      content when it is present and non-empty, else the description, else
      the empty text. A null description is passed on as None, which the
      summariser treats exactly like the empty text. */
  function ContentToSummarize(a: Article): string
  {
    if a.content.Some? && a.content.value != "" then a.content.value
    else if a.description.Some? then a.description.value
    else ""
  }

  /** The selection rule, case by case. */
  lemma ContentSelection(a: Article)
    ensures a.content.Some? && a.content.value != "" ==> ContentToSummarize(a) == a.content.value
    ensures (a.content.None? || a.content.value == "") && a.description.Some? ==> ContentToSummarize(a) == a.description.value
    ensures (a.content.None? || a.content.value == "") && a.description.None? ==> ContentToSummarize(a) == ""
  {
  }

  /** The texts the service is sent while `articles` are summarised in
      order: the non-empty ones. */
  function Prompts(articles: seq<Article>): seq<string>
  {
    if articles == [] then []
    else
      var text := ContentToSummarize(articles[|articles| - 1]);
      Prompts(articles[..|articles| - 1]) + (if text == "" then [] else [text])
  }

  /** The service is never sent an empty text, and at most one text per
      article. */
  lemma {:induction false} PromptsAreNonEmpty(articles: seq<Article>)
    ensures |Prompts(articles)| <= |articles|
    ensures forall p :: p in Prompts(articles) ==> p != ""
  {
    if articles != [] {
      PromptsAreNonEmpty(articles[..|articles| - 1]);
    }
  }

  /** The texts sent for a prefix of the articles are a prefix of the texts
      sent for all of them. */
  lemma {:induction false} PromptsOfPrefix(articles: seq<Article>, j: nat)
    requires j <= |articles|
    ensures Prompts(articles[..j]) <= Prompts(articles)
    decreases |articles| - j
  {
    if j < |articles| {
      PromptsOfPrefix(articles, j + 1);
      assert articles[..j + 1][..j] == articles[..j];
    } else {
      assert articles[..j] == articles;
    }
  }

  /** Request number `|Prompts(articles[..i])|` of the loop is the one about
      article `i`'s text, so the record of article `i` holds the reply to
      its own request; requests about later articles come later. */
  lemma RequestOfArticle(articles: seq<Article>, i: nat)
    requires i < |articles| && ContentToSummarize(articles[i]) != ""
    ensures |Prompts(articles[..i])| < |Prompts(articles)|
    ensures Prompts(articles)[|Prompts(articles[..i])|] == ContentToSummarize(articles[i])
    ensures forall j :: i < j <= |articles| ==> |Prompts(articles[..i])| < |Prompts(articles[..j])|
  {
    PromptsStep(articles, i);
    PromptsOfPrefix(articles, i + 1);
    forall j | i < j <= |articles|
      ensures |Prompts(articles[..i])| < |Prompts(articles[..j])|
    {
      LaterRequest(articles, i, j);
    }
  }

  /** The texts sent for the first `i + 1` articles: those for the first `i`,
      then article `i`'s text unless it is empty. */
  lemma PromptsStep(articles: seq<Article>, i: nat)
    requires i < |articles|
    ensures var text := ContentToSummarize(articles[i]);
            Prompts(articles[..i + 1]) == Prompts(articles[..i]) + (if text == "" then [] else [text])
  {
    assert articles[..i + 1][..i] == articles[..i];
  }

  lemma LaterRequest(articles: seq<Article>, i: nat, j: nat)
    requires i < j <= |articles| && ContentToSummarize(articles[i]) != ""
    ensures |Prompts(articles[..i])| < |Prompts(articles[..j])|
  {
    var upto := articles[..j];
    PromptsStep(upto, i);
    PromptsOfPrefix(upto, i + 1);
    assert upto[..i] == articles[..i] && upto[i] == articles[i];
  }

  /** One record of `articles_with_summaries` (lines 143-148). */
  function EnrichOne(a: Article, d: SummaryData): Enriched
  {
    Enriched(a.title, a.url, a.publishedAt, d)
  }

  /** `articles_with_summaries` after the loop, when the service answers its
      k-th request with `answer(k)` and `base` requests came before. */
  function Enrichment(articles: seq<Article>, answer: nat -> Reply, base: nat): seq<Enriched>
  {
    if articles == [] then []
    else
      var init := articles[..|articles| - 1];
      var a := articles[|articles| - 1];
      Enrichment(init, answer, base) + [EnrichOne(a, SummaryFor(ContentToSummarize(a), answer(base + |Prompts(init)|)))]
  }

  lemma {:induction false} EnrichmentLength(articles: seq<Article>, answer: nat -> Reply, base: nat)
    ensures |Enrichment(articles, answer, base)| == |articles|
  {
    if articles != [] {
      EnrichmentLength(articles[..|articles| - 1], answer, base);
    }
  }

  /** Record `i` copies the title, url and publication time of article `i`
      and holds the summariser's result for its text, given the reply to the
      request that follows the ones for the articles before it. */
  lemma {:induction false} EnrichmentAt(articles: seq<Article>, answer: nat -> Reply, base: nat, i: nat)
    requires i < |articles|
    ensures |Enrichment(articles, answer, base)| == |articles|
    ensures Enrichment(articles, answer, base)[i] == RecordFor(articles, answer, base, i)
  {
    var init := articles[..|articles| - 1];
    EnrichmentLength(articles, answer, base);
    EnrichmentLength(init, answer, base);
    if i < |articles| - 1 {
      EnrichmentAt(init, answer, base, i);
      assert init[i] == articles[i] && init[..i] == articles[..i];
    }
  }

  /** One record per article, in order, copying its title, url and
      publication time, and holding the summariser's result for its text;
      that result depends only on the reply to the request about this
      article, so a failure for one article changes no other record. */
  lemma EnrichmentInOrder(articles: seq<Article>, answer: nat -> Reply, base: nat)
    ensures |Enrichment(articles, answer, base)| == |articles|
    ensures forall i :: 0 <= i < |articles| ==> Enrichment(articles, answer, base)[i] == RecordFor(articles, answer, base, i)
  {
    EnrichmentLength(articles, answer, base);
    forall i | 0 <= i < |articles|
      ensures Enrichment(articles, answer, base)[i] == RecordFor(articles, answer, base, i)
    {
      EnrichmentAt(articles, answer, base, i);
    }
  }

  /** Record `i` of the enrichment: article `i`'s title, url and publication
      time, with the summariser's result for its text given the reply to the
      request after those for the articles before it. */
  function RecordFor(articles: seq<Article>, answer: nat -> Reply, base: nat, i: nat): Enriched
    requires i < |articles|
  {
    var a := articles[i];
    Enriched(a.title, a.url, a.publishedAt, SummaryFor(ContentToSummarize(a), answer(base + |Prompts(articles[..i])|)))
  }

  /** When every publication time parses and every parsed reply has both
      keys, the digest holds one embed per article, in order, failed
      summaries included: each shows its article's title and the summary the
      summariser produced for it, fallback or not. */
  lemma EveryArticleGetsAnEmbed(articles: seq<Article>, answer: nat -> Reply, base: nat, now: DateTime)
    requires ValidDateTime(now)
    requires forall i :: 0 <= i < |articles| ==> ParseTimestamp(articles[i].publishedAt).Some?
    requires forall k: nat :: KeepsBothKeys(answer(k))
    ensures DigestOf(now, Enrichment(articles, answer, base)).Ok?
    ensures var p := DigestOf(now, Enrichment(articles, answer, base)).value;
            p.content == Header(now) && |p.embeds| == |articles|
            && forall i :: 0 <= i < |articles| ==>
                 p.embeds[i].title == TitleMarker + articles[i].title
                 && p.embeds[i].url == articles[i].url
                 && Some(p.embeds[i].description) == RecordFor(articles, answer, base, i).summaryData.summary
  {
    var enriched := Enrichment(articles, answer, base);
    EnrichmentInOrder(articles, answer, base);
    forall i | 0 <= i < |enriched|
      ensures EmbedFor(enriched[i]).Ok?
    {
      SummaryHasBothKeys(ContentToSummarize(articles[i]), answer(base + |Prompts(articles[..i])|));
      EmbedContents(enriched[i]);
    }
    EmbedsSucceed(enriched);
    EmbedsInOrder(enriched);
    forall i | 0 <= i < |articles|
      ensures EmbedsFor(enriched).value[i].title == TitleMarker + articles[i].title
      ensures EmbedsFor(enriched).value[i].url == articles[i].url
      ensures Some(EmbedsFor(enriched).value[i].description) == RecordFor(articles, answer, base, i).summaryData.summary
    {
      EmbedContents(enriched[i]);
    }
  }

  /** The records for the first `i + 1` articles: those for the first `i`,
      then article `i`'s record. */
  lemma EnrichmentStep(articles: seq<Article>, answer: nat -> Reply, base: nat, i: nat,
                       enriched: seq<Enriched>, summary: SummaryData)
    requires i < |articles| && enriched == Enrichment(articles[..i], answer, base)
    requires summary == SummaryFor(ContentToSummarize(articles[i]), answer(base + |Prompts(articles[..i])|))
    ensures enriched + [EnrichOne(articles[i], summary)] == Enrichment(articles[..i + 1], answer, base)
  {
    assert articles[..i + 1][..i] == articles[..i];
  }

  /** The loop of lines 136-149. */
  method EnrichArticles(articles: seq<Article>, groq: Groq) returns (enriched: seq<Enriched>)
    modifies groq
    ensures enriched == Enrichment(articles, groq.answer, |old(groq.prompts)|)
    ensures groq.prompts == old(groq.prompts) + Prompts(articles)
  {
    enriched := [];
    var i := 0;
    while i < |articles|
      invariant 0 <= i <= |articles|
      invariant enriched == Enrichment(articles[..i], groq.answer, |old(groq.prompts)|)
      invariant groq.prompts == old(groq.prompts) + Prompts(articles[..i])
    {
      PromptsStep(articles, i);
      var text := ContentToSummarize(articles[i]);
      ghost var sent := |groq.prompts|;
      assert sent == |old(groq.prompts)| + |Prompts(articles[..i])|;
      var summary := Summarize(text, groq);
      EnrichmentStep(articles, groq.answer, |old(groq.prompts)|, i, enriched, summary);
      enriched := enriched + [EnrichOne(articles[i], summary)];
      i := i + 1;
    }
    assert articles[..i] == articles;
  }

  /** How a run ends. */
  datatype Outcome =
    | NoNews                  // lines 132-134
    | Notified                // send_to_discord ran to the end
    | Crashed(crash: Crash)   // an exception escaped

  /** `main`. `fetchClock` and `postClock` are the two readings of the clock
      (lines 19 and 117); `response` is the outcome of the GET. */
  method Run(fetchClock: DateTime, response: Option<seq<Article>>, postClock: DateTime, groq: Groq, hook: Webhook)
    returns (request: Option<NewsQuery>, outcome: Outcome)
    requires ValidDateTime(fetchClock) && ValidDateTime(postClock)
    modifies groq, hook
    ensures NewsQueryFor(fetchClock).Err? ==>
              request.None? && outcome == Crashed(DateOverflow)
              && groq.prompts == old(groq.prompts) && hook.posts == old(hook.posts)
    ensures NewsQueryFor(fetchClock).Ok? ==> request == Some(NewsQueryFor(fetchClock).value)
    ensures NewsQueryFor(fetchClock).Ok? && ArticlesOf(response) == [] ==>
              outcome == NoNews && groq.prompts == old(groq.prompts) && hook.posts == old(hook.posts)
    ensures NewsQueryFor(fetchClock).Ok? && ArticlesOf(response) != [] ==>
              var articles := ArticlesOf(response);
              var digest := DigestOf(postClock, Enrichment(articles, groq.answer, |old(groq.prompts)|));
              groq.prompts == old(groq.prompts) + Prompts(articles)
              && (digest.Ok? ==> outcome == Notified && hook.posts == old(hook.posts) + [digest.value])
              && (digest.Err? ==> outcome == Crashed(digest.error) && hook.posts == old(hook.posts))
  {
    var query := NewsQueryFor(fetchClock);
    if query.Err? {
      return None, Crashed(query.error);
    }
    request := Some(query.value);
    var articles := ArticlesOf(response);
    if articles == [] {
      return request, NoNews;
    }
    var enriched := EnrichArticles(articles, groq);
    if enriched != [] {
      var crash := SendToDiscord(enriched, postClock, hook);
      outcome := if crash.Some? then Crashed(crash.value) else Notified;
    } else {
      outcome := NoNews;
    }
  }
}
