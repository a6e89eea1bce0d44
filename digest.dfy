/** `send_to_discord` (ai_news_notifier.py:88-126): one embed per enriched
    article, the payload around them, and the single POST to the webhook. */
module Digest {
  import opened Wrappers
  import opened Errors
  import opened Calendar
  import opened Timestamps
  import opened Summarizer

  /** An article as `main` hands it on: the fetched fields it copies, and the
      summariser's result. */
  datatype Enriched = Enriched(title: string, url: string, publishedAt: string, summaryData: SummaryData)

  datatype EmbedField = EmbedField(name: string, value: string, inline: bool)

  datatype Embed = Embed(title: string, url: string, description: string, color: int,
                         fields: seq<EmbedField>, footer: string)

  datatype Payload = Payload(username: string, avatarUrl: string, content: string, embeds: seq<Embed>)

  const TitleMarker: string := "📰 "
  const EmbedColor: int := 0x5865F2
  const CategoryFieldName: string := "カテゴリ"
  const FooterPrefix: string := "Published at: "
  const Username: string := "AI News Notifier"
  const AvatarUrl: string := "https://i.imgur.com/4M34hi2.png"
  const HeaderPrefix: string := "## 📢 今日のAIニューストレンド ("

  /** The footer text, or the ValueError `strptime` raises. */
  function Footer(publishedAt: string): (r: Result<string, Crash>)
    ensures ParseTimestamp(publishedAt).None? <==> r == Err(BadTimestamp(publishedAt))
    ensures r.Ok? ==> r.value == FooterPrefix + FormatMinute(ParseTimestamp(publishedAt).value)
  {
    match ParseTimestamp(publishedAt)
    case None => Err(BadTimestamp(publishedAt))
    case Some(t) => Ok(FooterPrefix + FormatMinute(t))
  }

  /** The embed dictionary for one article, built in the order Python
      evaluates its entries: the summary, then the category, then the
      footer; the first missing piece is the exception. */
  function EmbedFor(a: Enriched): Result<Embed, Crash>
  {
    if a.summaryData.summary.None? then Err(MissingKey("summary"))
    else if a.summaryData.category.None? then Err(MissingKey("category"))
    else match Footer(a.publishedAt)
      case Err(c) => Err(c)
      case Ok(footer) =>
        Ok(Embed(TitleMarker + a.title, a.url, a.summaryData.summary.value, EmbedColor,
                 [EmbedField(CategoryFieldName, "`" + a.summaryData.category.value + "`", true)],
                 footer))
  }

  /** What the embed of one article shows, and when there is none. */
  lemma EmbedContents(a: Enriched)
    ensures EmbedFor(a).Ok? <==>
              a.summaryData.summary.Some? && a.summaryData.category.Some? && ParseTimestamp(a.publishedAt).Some?
    ensures EmbedFor(a).Ok? ==>
              var e := EmbedFor(a).value;
              e.title == TitleMarker + a.title && e.url == a.url
              && e.description == a.summaryData.summary.value
              && e.color == EmbedColor
              && e.fields == [EmbedField(CategoryFieldName, "`" + a.summaryData.category.value + "`", true)]
              && e.footer == FooterPrefix + FormatMinute(ParseTimestamp(a.publishedAt).value)
  {
  }

  /** The outcome of the embed loop over `articles`: the list of embeds in
      order, or the exception of the first article that has none. */
  function EmbedsFor(articles: seq<Enriched>): Result<seq<Embed>, Crash>
  {
    MapUntilError(EmbedFor, articles)
  }

  /** The embeds are built for all articles exactly when every article
      has one. */
  lemma EmbedsSucceed(articles: seq<Enriched>)
    ensures EmbedsFor(articles).Ok? <==> forall i :: 0 <= i < |articles| ==> EmbedFor(articles[i]).Ok?
  {
    MapUntilErrorSucceeds(EmbedFor, articles);
  }

  /** The embeds are one per article, in input order. */
  lemma EmbedsInOrder(articles: seq<Enriched>)
    requires EmbedsFor(articles).Ok?
    ensures |EmbedsFor(articles).value| == |articles|
    ensures forall i :: 0 <= i < |articles| ==> EmbedFor(articles[i]).Ok? && EmbedsFor(articles).value[i] == EmbedFor(articles[i]).value
  {
    MapUntilErrorInOrder(EmbedFor, articles);
  }

  /** A failed loop raises the exception of the first article without an
      embed. */
  lemma EmbedsStopAtFirstFailure(articles: seq<Enriched>)
    requires EmbedsFor(articles).Err?
    ensures exists k :: 0 <= k < |articles| && EmbedFor(articles[k]) == Err(EmbedsFor(articles).error)
                        && forall i :: 0 <= i < k ==> EmbedFor(articles[i]).Ok?
  {
    MapUntilErrorStops(EmbedFor, articles);
  }

  /** The embed loop of lines 93-111. */
  method BuildEmbeds(articles: seq<Enriched>) returns (r: Result<seq<Embed>, Crash>)
    ensures r == EmbedsFor(articles)
  {
    var embeds: seq<Embed> := [];
    var i := 0;
    while i < |articles|
      invariant 0 <= i <= |articles|
      invariant MapUntilError(EmbedFor, articles[..i]) == Ok(embeds)
    {
      assert articles[..i + 1][..i] == articles[..i];
      var embed := EmbedFor(articles[i]);
      if embed.Err? {
        MapUntilErrorAfterError(EmbedFor, articles, i + 1);
        return Err(embed.error);
      }
      embeds := embeds + [embed.value];
      i := i + 1;
    }
    assert articles[..i] == articles;
    r := Ok(embeds);
  }

  /** The message text above the embeds, with the run date. */
  function Header(now: DateTime): string
    requires ValidDateTime(now)
  {
    HeaderPrefix + FormatDate(now.date) + ")"
  }

  /** The header is the fixed title with the run date, `YYYY-MM-DD`, in
      parentheses; the ten characters encode the year, month and day. */
  lemma HeaderHoldsRunDate(now: DateTime)
    requires ValidDateTime(now)
    ensures var s := Header(now); var p := |HeaderPrefix|;
            |s| == p + 11 && s[..p] == HeaderPrefix && s[p + 10] == ')'
            && s[p..p + 10] == FormatDate(now.date)
  {
    var s := Header(now);
    var p := |HeaderPrefix|;
    assert s[..p] == HeaderPrefix;
    assert s[p..p + 10] == FormatDate(now.date);
  }

  /** The webhook payload of lines 114-119. */
  function MakePayload(now: DateTime, embeds: seq<Embed>): Payload
    requires ValidDateTime(now)
  {
    Payload(Username, AvatarUrl, Header(now), embeds)
  }

  /** The payload `send_to_discord` posts for `articles`, or the exception
      that stops it first. Nothing here depends on whether a summary was a
      fallback. */
  function DigestOf(now: DateTime, articles: seq<Enriched>): Result<Payload, Crash>
    requires ValidDateTime(now)
  {
    match EmbedsFor(articles)
    case Err(c) => Err(c)
    case Ok(embeds) => Ok(MakePayload(now, embeds))
  }

  /** The chat webhook; `posts` records every payload sent to it. Whether a
      POST succeeds only changes what the program prints. */
  class Webhook {
    var posts: seq<Payload>

    constructor ()
      ensures posts == []
    {
      posts := [];
    }

    method Post(p: Payload)
      modifies this
      ensures posts == old(posts) + [p]
    {
      posts := posts + [p];
    }
  }

  /** `send_to_discord`: posts the digest exactly once, or raises before
      posting anything. */
  method SendToDiscord(articles: seq<Enriched>, now: DateTime, hook: Webhook) returns (crash: Option<Crash>)
    requires ValidDateTime(now)
    modifies hook
    ensures DigestOf(now, articles).Ok? ==> crash.None? && hook.posts == old(hook.posts) + [DigestOf(now, articles).value]
    ensures DigestOf(now, articles).Err? ==> crash == Some(DigestOf(now, articles).error) && hook.posts == old(hook.posts)
  {
    var embeds := BuildEmbeds(articles);
    if embeds.Err? {
      return Some(embeds.error);
    }
    var payload := MakePayload(now, embeds.value);
    hook.Post(payload);
    crash := None;
  }
}
