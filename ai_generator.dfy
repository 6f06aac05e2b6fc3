/**
 * Post-text generation (backend/app/services/ai_generator.py).
 *
 * Two modes: with a model API key and the client library present, one
 * completion request is built from the trend bundle and its trimmed answer
 * is the post; otherwise one of four fixed templates is rendered from the
 * bundle's keywords and headlines. The remote completion is an input
 * function, and `random.choice` over the four templates is the index
 * `choice`.
 */
module AiGenerator {
  import opened Text
  import opened BuzzCollector

  const DefaultGenre := "テクノロジー"

  /** Python's `genre or 'テクノロジー'`. */
  function GenreOr(genre: Option<string>): (g: string)
    ensures g != ""
    ensures Truthy(genre) ==> g == genre.value
    ensures !Truthy(genre) ==> g == DefaultGenre
  {
    if Truthy(genre) then genre.value else DefaultGenre
  }

  function Titles(items: seq<TrendItem>): seq<string>
  {
    seq(|items|, i requires 0 <= i < |items| => items[i].title)
  }

  /** Cutting the items and then taking titles is taking titles and then cutting. */
  lemma TitlesTake(items: seq<TrendItem>, n: nat)
    ensures Titles(Take(items, n)) == Take(Titles(items), n)
  {
    var t := Take(items, n);
    assert forall i :: 0 <= i < |t| ==> t[i] == items[i];
  }

  // ─── Prompt context ───────────────────────────────────────────────

  const GoogleWordCap: nat := 8
  const HeadlineCap: nat := 5
  const BuzzCap: nat := 3
  const SnippetCap: nat := 80

  /** One section of the prompt context, before rendering. */
  datatype Section =
    | GoogleWords(words: seq<string>)
    | NewsHeadlines(titles: seq<string>)
    | BuzzSnippets(snippets: seq<string>)
    | GenreLine(genre: string)

  function Bullets(lines: seq<string>): seq<string>
  {
    seq(|lines|, i requires 0 <= i < |lines| => "・" + lines[i])
  }

  function RenderSection(sec: Section): string
  {
    match sec
    case GoogleWords(words) => "■ Google急上昇ワード: " + Join(words, ", ")
    case NewsHeadlines(titles) => "■ 最新ニュース:\n" + Join(Bullets(titles), "\n")
    case BuzzSnippets(snippets) => "■ Xでバズっている投稿:\n" + Join(Bullets(snippets), "\n")
    case GenreLine(genre) => "■ 指定ジャンル: " + genre
  }

  /** Each post's description cut to 80 characters: a prefix of it, whole when it is short enough. */
  function Snippets(posts: seq<TrendItem>): (ss: seq<string>)
    ensures |ss| == |posts|
    ensures forall i :: 0 <= i < |posts| ==>
      && |ss[i]| == (if |posts[i].description| <= SnippetCap then |posts[i].description| else SnippetCap)
      && ss[i] == posts[i].description[..|ss[i]|]
  {
    seq(|posts|, i requires 0 <= i < |posts| => Take(posts[i].description, SnippetCap))
  }

  /** The sections in their fixed order; each is present only when its source list (or the genre) is. */
  function ContextSections(b: TrendBundle, genre: Option<string>): seq<Section>
  {
    (if b.googleTrends != [] then [GoogleWords(Titles(Take(b.googleTrends, GoogleWordCap)))] else [])
    + (if b.news != [] then [NewsHeadlines(Titles(Take(b.news, HeadlineCap)))] else [])
    + (if b.xBuzz != [] then [BuzzSnippets(Snippets(Take(b.xBuzz, BuzzCap)))] else [])
    + (if Truthy(genre) then [GenreLine(genre.value)] else [])
  }

  /** Lines 59-87: the context text handed to the model. */
  function BuildTrendContext(trend: Option<TrendBundle>, genre: Option<string>): string
  {
    if trend.None? then "ジャンル: " + GenreOr(genre) + "（トレンドデータなし）"
    else
      var parts := ContextSections(trend.value, genre);
      if parts == [] then "ジャンル: " + GenreOr(genre)
      else Join(seq(|parts|, i requires 0 <= i < |parts| => RenderSection(parts[i])), "\n\n")
  }

  /** The context holds at most 8 trend words, 5 headlines and 3 snippets of at most 80 characters, each taken from the front of its list. */
  lemma ContextSectionCaps(b: TrendBundle, genre: Option<string>)
    ensures var parts := ContextSections(b, genre);
      && |parts| <= 4
      && (forall sec :: sec in parts && sec.GoogleWords? ==>
            |sec.words| <= GoogleWordCap && sec.words == Titles(b.googleTrends)[..|sec.words|])
      && (forall sec :: sec in parts && sec.NewsHeadlines? ==>
            |sec.titles| <= HeadlineCap && sec.titles == Titles(b.news)[..|sec.titles|])
      && (forall sec :: sec in parts && sec.BuzzSnippets? ==>
            && |sec.snippets| <= BuzzCap && |sec.snippets| <= |b.xBuzz|
            && forall k :: 0 <= k < |sec.snippets| ==>
                 |sec.snippets[k]| <= SnippetCap && sec.snippets[k] == Take(b.xBuzz[k].description, SnippetCap))
  {
    TitlesTake(b.googleTrends, GoogleWordCap);
    TitlesTake(b.news, HeadlineCap);
    var x := Take(b.xBuzz, BuzzCap);
    var ss := Snippets(x);
    forall k | 0 <= k < |ss|
      ensures |ss[k]| <= SnippetCap && ss[k] == Take(b.xBuzz[k].description, SnippetCap)
    {
      assert x[k] == b.xBuzz[k];
    }
    var parts := ContextSections(b, genre);
    assert forall sec :: sec in parts && sec.BuzzSnippets? ==> sec == BuzzSnippets(ss);
  }

  /** The sections come in a fixed order: trend words first when there are any, and the genre line last exactly when a genre is set. */
  lemma ContextSectionOrder(b: TrendBundle, genre: Option<string>)
    ensures var parts := ContextSections(b, genre);
      && (Truthy(genre) ==> parts != [] && parts[|parts| - 1] == GenreLine(genre.value))
      && (!Truthy(genre) ==> forall sec :: sec in parts ==> !sec.GenreLine?)
      && (b.googleTrends != [] <==> parts != [] && parts[0].GoogleWords?)
  {
  }

  /** Without trend data the context names only the genre; with trend data but no section at all, the genre is necessarily unset and the context is the default genre line. */
  lemma ContextFallbacks(trend: Option<TrendBundle>, genre: Option<string>)
    ensures trend.None? ==> BuildTrendContext(trend, genre) == "ジャンル: " + GenreOr(genre) + "（トレンドデータなし）"
    ensures trend.Some? && ContextSections(trend.value, genre) == [] ==>
      BuildTrendContext(trend, genre) == "ジャンル: テクノロジー"
  {
  }

  /** When some section is present the context starts with the first one's heading, and a set genre ends it. */
  lemma ContextJoined(b: TrendBundle, genre: Option<string>)
    requires ContextSections(b, genre) != []
    ensures var parts := ContextSections(b, genre);
      var ctx := BuildTrendContext(Some(b), genre);
      && |ctx| >= |RenderSection(parts[0])|
      && ctx[..|RenderSection(parts[0])|] == RenderSection(parts[0])
      && (Truthy(genre) ==>
            |ctx| >= |"■ 指定ジャンル: " + genre.value|
            && ctx[|ctx| - |"■ 指定ジャンル: " + genre.value|..] == "■ 指定ジャンル: " + genre.value)
  {
    var parts := ContextSections(b, genre);
    var rendered := seq(|parts|, i requires 0 <= i < |parts| => RenderSection(parts[i]));
    JoinEnds(rendered, "\n\n");
    ContextSectionOrder(b, genre);
  }

  // ─── Remote mode ──────────────────────────────────────────────────

  /** The completion request sent to the model. */
  datatype ModelRequest = ModelRequest(model: string, system: string, user: string, maxTokens: nat, temperature: real)

  /** Length limit written into the prompt: 280 characters for "x", 500 for any other platform. */
  function MaxChars(platform: string): nat
  {
    if platform == "x" then 280 else 500
  }

  function PlatformName(platform: string): string
  {
    if platform == "x" then "X (Twitter)" else "Threads"
  }

  function LengthRule(platform: string): string
  {
    "- " + Decimal(MaxChars(platform)) + "文字以内\n"
  }

  /** The rule line the prompt carries: 280 characters on X, 500 on any other platform. */
  lemma LengthRuleText(platform: string)
    ensures platform == "x" ==> LengthRule(platform) == "- 280文字以内\n"
    ensures platform != "x" ==> LengthRule(platform) == "- 500文字以内\n"
  {
    DecimalLimits();
    if platform == "x" {
      assert LengthRule(platform) == "- " + "280" + "文字以内\n";
    } else {
      assert LengthRule(platform) == "- " + "500" + "文字以内\n";
    }
  }

  /** The two limits written out in decimal. */
  lemma DecimalLimits()
    ensures Decimal(280) == "280" && Decimal(500) == "500"
  {
    assert Digit(0) == '0' && Digit(2) == '2' && Digit(5) == '5' && Digit(8) == '8';
    assert Decimal(28) == Decimal(2) + [Digit(8)] == "28";
    assert Decimal(280) == Decimal(28) + [Digit(0)] == "280";
    assert Decimal(50) == Decimal(5) + [Digit(0)] == "50";
    assert Decimal(500) == Decimal(50) + [Digit(0)] == "500";
  }

  const PromptRole := "でバズる投稿を作成するプロのSNSコピーライターです。\n以下の現在のトレンドデータを参考にして、バズる投稿を1つ生成してください。\n\n【現在のトレンド情報】\n"
  const PromptRulesHead := "\n\n【投稿ルール】\n"
  const PromptRulesTail := "- トレンドに乗った内容にする\n- 共感を呼ぶ・役に立つ・意外性のある内容にする\n- エンゲージメントが高くなるような文体\n- ハッシュタグを2-3個含める\n- 投稿文のみを出力し、説明は不要"

  function SystemPrompt(platform: string, context: string): string
  {
    "あなたは" + PlatformName(platform) + PromptRole + context + PromptRulesHead + LengthRule(platform) + PromptRulesTail
  }

  const UserInstruction := "今のトレンドに基づいてバズる投稿を1つ生成して"

  function GenerationRequest(platform: string, trend: Option<TrendBundle>, genre: Option<string>): ModelRequest
  {
    ModelRequest("gpt-4o-mini", SystemPrompt(platform, BuildTrendContext(trend, genre)), UserInstruction, 400, 0.9)
  }

  /** The system instruction carries the trend context and the platform's length rule. */
  lemma GenerationRequestMentions(platform: string, trend: Option<TrendBundle>, genre: Option<string>)
    ensures var req := GenerationRequest(platform, trend, genre);
      && Contains(req.system, BuildTrendContext(trend, genre))
      && Contains(req.system, LengthRule(platform))
      && req.maxTokens == 400
  {
    var ctx := BuildTrendContext(trend, genre);
    var intro := "あなたは" + PlatformName(platform) + PromptRole;
    ContainsMiddle(intro, ctx, PromptRulesHead);
    ContainsAppend(intro + ctx + PromptRulesHead, LengthRule(platform), ctx);
    ContainsAppend(intro + ctx + PromptRulesHead + LengthRule(platform), PromptRulesTail, ctx);
    ContainsMiddle(intro + ctx + PromptRulesHead, LengthRule(platform), PromptRulesTail);
  }

  // ─── Template mode ────────────────────────────────────────────────

  const KeywordCap: nat := 5
  const HeadlineQuoteCap: nat := 40

  /** The template keywords: the first five top keywords, or else the genre (or the default) alone — never empty. */
  function TemplateKeywords(trend: Option<TrendBundle>, genre: Option<string>): (kws: seq<string>)
    ensures 1 <= |kws| <= KeywordCap
    ensures trend.Some? && trend.value.topKeywords != [] ==> kws == Take(trend.value.topKeywords, KeywordCap)
    ensures trend.None? || trend.value.topKeywords == [] ==> kws == [GenreOr(genre)]
  {
    var fromTrend := if trend.Some? then Take(trend.value.topKeywords, KeywordCap) else [];
    if fromTrend == [] then [GenreOr(genre)] else fromTrend
  }

  /** Titles that are not empty, in item order. */
  function NonEmptyTitles(items: seq<TrendItem>): seq<string>
  {
    if items == [] then []
    else NonEmptyTitles(items[..|items| - 1])
         + (if items[|items| - 1].title != "" then [items[|items| - 1].title] else [])
  }

  /** Exactly the non-empty titles are kept, and none is empty. */
  lemma {:induction false} NonEmptyTitlesMembers(items: seq<TrendItem>)
    ensures forall t :: t in NonEmptyTitles(items) <==> t != "" && t in Titles(items)
    ensures |NonEmptyTitles(items)| <= |items|
  {
    if items != [] {
      var init := items[..|items| - 1];
      NonEmptyTitlesMembers(init);
      assert Titles(items) == Titles(init) + [items[|items| - 1].title];
    }
  }

  /** The template headlines: non-empty news titles, then non-empty trend titles. */
  function Headlines(trend: Option<TrendBundle>): seq<string>
  {
    if trend.None? then [] else NonEmptyTitles(trend.value.news) + NonEmptyTitles(trend.value.googleTrends)
  }

  function FirstKeyword(kws: seq<string>): string
  {
    if kws != [] then kws[0] else DefaultGenre
  }

  function Hashtag(kw: string): string
  {
    "#" + RemoveSpaces(kw)
  }

  /** The fixed tags after the keyword hashtag, per template. */
  function TagTail(choice: nat): string
  {
    if choice == 0 then " #トレンド #2026"
    else if choice == 1 then " #最新ニュース"
    else if choice == 2 then " #情報発信 #行動力"
    else " #みんなの意見"
  }

  const ListLead := "🔥 今話題の「"
  const ListBody := "」まとめ！\n\n注目ポイント👇\n1. 検索トレンドで急上昇中\n2. SNSでも多くの反応\n3. 今後さらに注目される可能性大\n\n知っておかないとヤバいかも...！"
  const OpinionLead := "💡 「"
  const OpinionBody := "」\n\nこれ、めちゃくちゃ大事なニュースなのに\nまだ知らない人が多すぎる。\n\n今のうちにチェックしておくべき。\n早く動いた人が勝つ時代。"
  const TipsLead := "📌 "
  const TipsBody := "について、知っておくべき3つのこと\n\n① トレンドが急速に変化している\n② 早期参入者が圧倒的に有利\n③ 情報収集のスピードが差を生む\n\n「まだ早い」と思った時がチャンス。"
  const QuestionLead := "🤔 ぶっちゃけ「"
  const QuestionBody := "」ってどう思う？\n\n最近めちゃくちゃ話題になってるけど、\n実際に使ってみた人の感想が聞きたい。\n\n良かった点・微妙だった点、\nリプで教えてくれたら嬉しい🙏"

  /** The headline the opinion template quotes: the first headline, or "<keyword>の最新動向" when there is none. */
  function OpinionHeadline(kws: seq<string>, headlines: seq<string>): string
  {
    if headlines != [] then headlines[0] else FirstKeyword(kws) + "の最新動向"
  }

  /** The part of a template before its blank line and tag line: 0 list, 1 opinion, 2 tips, 3 question. */
  function TemplateBody(choice: nat, kws: seq<string>, headlines: seq<string>): string
    requires choice < 4
  {
    var kw := FirstKeyword(kws);
    if choice == 0 then ListLead + kw + ListBody
    else if choice == 1 then OpinionLead + Take(OpinionHeadline(kws, headlines), HeadlineQuoteCap) + OpinionBody
    else if choice == 2 then TipsLead + kw + TipsBody
    else QuestionLead + kw + QuestionBody
  }

  /** The last line of every template: the keyword hashtag, then the template's fixed tags. */
  function TagLine(kws: seq<string>, choice: nat): string
  {
    Hashtag(FirstKeyword(kws)) + TagTail(choice)
  }

  /** The template `random.choice` picked, with its blank line and tag line. */
  function RenderTemplate(choice: nat, kws: seq<string>, headlines: seq<string>): string
    requires choice < 4
  {
    TemplateBody(choice, kws, headlines) + "\n\n" + TagLine(kws, choice)
  }

  /** A text made of a body, a blank line and a tag line ends with that tag line, which is its last line when it has no line break. */
  lemma {:induction false} EndsWithTagLine(body: string, tags: string)
    ensures var text := body + "\n\n" + tags;
      && |text| >= |tags| + 2
      && text[|text| - |tags|..] == tags
      && text[|text| - |tags| - 2..|text| - |tags|] == "\n\n"
      && ('\n' !in tags ==> LastLine(text) == tags)
  {
    var text := body + "\n\n" + tags;
    assert text == (body + "\n") + "\n" + tags;
    if '\n' !in tags {
      LastLineAfterBreak(body + "\n", tags);
    }
  }

  /** The fixed tags hold no line break. */
  lemma TagTailUnbroken(choice: nat)
    ensures '\n' !in TagTail(choice)
  {
  }

  /** The keyword hashtag holds no line break when the keyword has none. */
  lemma HashtagUnbroken(kw: string)
    requires '\n' !in kw
    ensures '\n' !in Hashtag(kw)
  {
    assert multiset(RemoveSpaces(kw))['\n'] == multiset(kw)['\n'] == 0;
  }

  /** Every template ends with a blank line and its tag line: "#", the first keyword with its spaces removed, then the fixed tags; when the keyword has no line break, the tag line is the last line. */
  lemma TemplateEnding(choice: nat, kws: seq<string>, headlines: seq<string>)
    requires choice < 4
    ensures var text := RenderTemplate(choice, kws, headlines);
      var tags := TagLine(kws, choice);
      && tags == "#" + RemoveSpaces(FirstKeyword(kws)) + TagTail(choice)
      && |text| >= |tags| + 2
      && text[|text| - |tags|..] == tags
      && text[|text| - |tags| - 2..|text| - |tags|] == "\n\n"
      && ('\n' !in FirstKeyword(kws) ==> LastLine(text) == tags)
  {
    var kw := FirstKeyword(kws);
    EndsWithTagLine(TemplateBody(choice, kws, headlines), TagLine(kws, choice));
    if '\n' !in kw {
      HashtagUnbroken(kw);
      TagTailUnbroken(choice);
    }
  }

  /** Each fixed tag line opens with a hashtag word: " #" and then a non-space character. */
  lemma TagTailShape(choice: nat)
    ensures |TagTail(choice)| > 2 && TagTail(choice)[..2] == " #" && TagTail(choice)[2] != ' '
  {
  }

  /** A text that ends with `a + b` ends with `b`. */
  lemma SuffixOfSuffix(text: string, a: string, b: string)
    requires |text| >= |a + b| && text[|text| - |a + b|..] == a + b
    ensures |text| >= |b| && text[|text| - |b|..] == b
  {
    assert text[|text| - |b|..] == text[|text| - |a + b|..][|a|..];
  }

  /** Every template output is non-empty and ends with its fixed tags, which open with a hashtag word. */
  lemma TemplateHasHashtag(choice: nat, kws: seq<string>, headlines: seq<string>)
    requires choice < 4
    ensures var text := RenderTemplate(choice, kws, headlines);
      && text != []
      && |text| >= |TagTail(choice)| && text[|text| - |TagTail(choice)|..] == TagTail(choice)
      && |TagTail(choice)| > 2 && TagTail(choice)[..2] == " #" && TagTail(choice)[2] != ' '
  {
    TemplateEnding(choice, kws, headlines);
    TagTailShape(choice);
    SuffixOfSuffix(RenderTemplate(choice, kws, headlines), Hashtag(FirstKeyword(kws)), TagTail(choice));
  }

  /** A text that starts with `a + b` starts with `a`. */
  lemma PrefixOfPrefix(text: string, a: string, b: string)
    requires |text| >= |a + b| && text[..|a + b|] == a + b
    ensures |text| >= |a| && text[..|a|] == a
  {
    assert text[..|a|] == (a + b)[..|a|];
  }

  /** The opinion template opens by quoting the first headline cut to 40 characters, or "<keyword>の最新動向" when there is none. */
  lemma OpinionQuotesHeadline(kws: seq<string>, headlines: seq<string>)
    ensures var quote := Take(if headlines != [] then headlines[0] else FirstKeyword(kws) + "の最新動向", HeadlineQuoteCap);
      var text := RenderTemplate(1, kws, headlines);
      && |quote| <= HeadlineQuoteCap
      && |text| >= |OpinionLead + quote|
      && text[..|OpinionLead + quote|] == OpinionLead + quote
  {
    var quote := Take(OpinionHeadline(kws, headlines), HeadlineQuoteCap);
    var body := TemplateBody(1, kws, headlines);
    var text := RenderTemplate(1, kws, headlines);
    assert body == OpinionLead + quote + OpinionBody;
    assert text[..|body + "\n\n"|] == body + "\n\n";
    PrefixOfPrefix(text, body, "\n\n");
    PrefixOfPrefix(text, OpinionLead + quote, OpinionBody);
  }

  /** Lines 90-125: keywords and headlines gathered with loops, then the chosen template rendered. */
  method TemplateGenerate(genre: Option<string>, platform: string, trend: Option<TrendBundle>, choice: nat) returns (text: string)
    requires choice < 4
    ensures text == RenderTemplate(choice, TemplateKeywords(trend, genre), Headlines(trend))
  {
    var keywords: seq<string> := [];
    var headlines: seq<string> := [];
    if trend.Some? {
      keywords := Take(trend.value.topKeywords, KeywordCap);
      var news := trend.value.news;
      var i := 0;
      while i < |news|
        invariant 0 <= i <= |news|
        invariant headlines == NonEmptyTitles(news[..i])
      {
        assert news[..i + 1][..i] == news[..i];
        if news[i].title != "" {
          headlines := headlines + [news[i].title];
        }
        i := i + 1;
      }
      assert news[..i] == news;
      var google := trend.value.googleTrends;
      var j := 0;
      while j < |google|
        invariant 0 <= j <= |google|
        invariant headlines == NonEmptyTitles(news) + NonEmptyTitles(google[..j])
      {
        assert google[..j + 1][..j] == google[..j];
        if google[j].title != "" {
          headlines := headlines + [google[j].title];
        }
        j := j + 1;
      }
      assert google[..j] == google;
    }
    if keywords == [] {
      keywords := [GenreOr(genre)];
    }
    text := RenderTemplate(choice, keywords, headlines);
  }

  /** Where the model client comes from: the configured API key, and whether the client library is installed. */
  datatype GeneratorEnv = GeneratorEnv(apiKey: string, clientInstalled: bool)

  /** What the completion call gave: a message whose content may be missing, or the exception it raised. */
  datatype Completion = Answered(content: Option<string>) | CompletionFailed(error: string)

  /** The text of the exception `.strip()` raises on a missing message content. */
  const NoContentError := "'NoneType' object has no attribute 'strip'"

  /** The post text, or the exception that escapes generation. */
  datatype PostText = Produced(text: string) | GenerationFailed(error: string)

  /** The outcome and the completion requests made to produce it. */
  datatype Generated = Generated(outcome: PostText, requests: seq<ModelRequest>)

  predicate UsesTemplates(env: GeneratorEnv)
  {
    env.apiKey == "" || !env.clientInstalled
  }

  /**
   * Lines 11-56: templates without a key or client (no request at all, and never an error); else exactly
   * one request, whose stripped content is the post. A failed call, or a message without content, raises.
   */
  method GeneratePostContent(env: GeneratorEnv, genre: Option<string>, platform: string, trend: Option<TrendBundle>,
                             choice: nat, complete: ModelRequest -> Completion) returns (g: Generated)
    requires choice < 4
    ensures UsesTemplates(env) ==>
      && g.requests == []
      && g.outcome.Produced? && g.outcome.text != []
      && g.outcome.text == RenderTemplate(choice, TemplateKeywords(trend, genre), Headlines(trend))
    ensures !UsesTemplates(env) ==>
      var req := GenerationRequest(platform, trend, genre);
      && g.requests == [req]
      && (complete(req).CompletionFailed? ==> g.outcome == GenerationFailed(complete(req).error))
      && (complete(req) == Answered(None) ==> g.outcome == GenerationFailed(NoContentError))
      && (complete(req).Answered? && complete(req).content.Some? ==>
            g.outcome == Produced(Strip(complete(req).content.value)))
  {
    if UsesTemplates(env) {
      var text := TemplateGenerate(genre, platform, trend, choice);
      TemplateHasHashtag(choice, TemplateKeywords(trend, genre), Headlines(trend));
      return Generated(Produced(text), []);
    }
    var req := GenerationRequest(platform, trend, genre);
    var answer := complete(req);
    match answer
    case CompletionFailed(e) =>
      g := Generated(GenerationFailed(e), [req]);
    case Answered(None) =>
      g := Generated(GenerationFailed(NoContentError), [req]);
    case Answered(Some(content)) =>
      g := Generated(Produced(Strip(content)), [req]);
  }
}
