/** The vibe object returned by generation and the values `display_vibe_result`
    derives from it before rendering: per-field defaults, the energy icon, the
    keyword tags and the "Listen Now" search link. */
module Vibe {
  import opened Wrappers
  import opened Text

  /** The parsed reply of the model. A field is `None` when its key is absent;
      keys other than these five are ignored. */
  datatype VibeData = VibeData(
    mood: Option<string>,
    genre: Option<string>,
    energyLevel: Option<string>,
    aestheticKeywords: Option<seq<string>>,
    suggestedMusic: Option<string>)

  const Unknown := "Unknown"
  const NoSuggestion := "No suggestion available"
  const NoKeywords := "No keywords"
  /** The battery emoji, U+1F50B. */
  const Battery := "\U{1F50B}"
  const SearchUrlPrefix := "https://www.youtube.com/results?search_query="

  /** The icon lookup table, keyed by the lower-cased energy level. */
  const EnergyIcons: map<string, string> :=
    map["low" := "\U{1F50B}", "medium" := "\U{1F50B}\U{1F50B}", "high" := "\U{1F50B}\U{1F50B}\U{1F50B}"]

  /** What the result card shows, field by field. */
  datatype VibeCard = VibeCard(
    mood: string,
    genre: string,
    energyIcon: string,
    energyText: string,
    keywordsHtml: string,
    suggestion: string,
    searchUrl: string)

  /** Number of batteries the card shows for an energy level: a reference
      definition of the lookup, written as a plain case split. */
  function EnergyBars(level: string): (n: nat)
    ensures 1 <= n <= 3
  {
    var l := Lower(level);
    if l == "medium" then 2 else if l == "high" then 3 else 1
  }

  /** The energy icon: the table entry for the lower-cased level, one battery otherwise. */
  function EnergyIcon(level: string): (icon: string)
    ensures icon == Repeat(Battery, EnergyBars(level))
  {
    var key := Lower(level);
    if key in EnergyIcons then EnergyIcons[key] else Battery
  }

  /** Levels that differ only in the case of their letters get the same icon. */
  lemma EnergyIconIgnoresCase(a: string, b: string)
    requires SameIgnoringCase(a, b)
    ensures EnergyIcon(a) == EnergyIcon(b)
  {
    SameIgnoringCaseLower(a, b);
  }

  /** The recognised levels get one, two and three batteries, in any letter case;
      the default level gets one. */
  lemma EnergyIconLevels(level: string)
    ensures Lower(level) == "low" ==> EnergyIcon(level) == Battery
    ensures Lower(level) == "medium" ==> EnergyIcon(level) == Battery + Battery
    ensures Lower(level) == "high" ==> EnergyIcon(level) == Battery + Battery + Battery
    ensures Lower(level) !in {"low", "medium", "high"} ==> EnergyIcon(level) == Battery
    ensures EnergyIcon(Unknown) == Battery
  {
  }

  /** Text next to the icon: the level title-cased. */
  function EnergyText(level: string): (text: string)
    ensures |text| == |level| && Lower(text) == Lower(level)
    ensures Title(text) == text
  {
    TitleFromKeepsLetters(level, false);
    TitleFromIdempotent(level, false);
    Title(level)
  }

  /** One keyword chip. */
  function Tag(text: string): (html: string) {
    "<span class=\"keyword-tag\">" + text + "</span>"
  }

  /** The chips of the keyword list: one per keyword, in order, or a single
      "No keywords" chip when the list is empty. */
  function KeywordTags(keywords: seq<string>): (tags: seq<string>)
    ensures keywords == [] ==> tags == [Tag(NoKeywords)]
    ensures keywords != [] ==> |tags| == |keywords| && forall i :: 0 <= i < |tags| ==> tags[i] == Tag(keywords[i])
  {
    if keywords != [] then seq(|keywords|, i requires 0 <= i < |keywords| => Tag(keywords[i]))
    else [Tag(NoKeywords)]
  }

  function KeywordsHtml(keywords: seq<string>): (html: string) {
    Concat(KeywordTags(keywords))
  }

  /** The markup grows by exactly one chip, at the end, per keyword added, and
      nothing else is added. */
  lemma KeywordsHtmlAppend(keywords: seq<string>, k: string)
    ensures keywords != [] ==> KeywordsHtml(keywords + [k]) == KeywordsHtml(keywords) + Tag(k)
    ensures KeywordsHtml([]) == Tag(NoKeywords)
    ensures KeywordsHtml([k]) == Tag(k)
  {
    assert KeywordTags([k]) == [Tag(k)];
    assert Concat([Tag(k)]) == Tag(k) + Concat([]);
    assert Concat([Tag(NoKeywords)]) == Tag(NoKeywords) + Concat([]);
    if keywords != [] {
      assert KeywordTags(keywords + [k]) == KeywordTags(keywords) + [Tag(k)];
      ConcatAppend(KeywordTags(keywords), [Tag(k)]);
    }
  }

  /** The search query: every space and every hyphen becomes `+`; nothing else changes. */
  function SearchQuery(suggested: string): (query: string)
    ensures |query| == |suggested|
    ensures forall i :: 0 <= i < |query| ==>
      query[i] == if suggested[i] == ' ' || suggested[i] == '-' then '+' else suggested[i]
  {
    var spaced := ReplaceChar(suggested, ' ', '+');
    forall i | 0 <= i < |suggested|
      ensures ReplaceChar(spaced, '-', '+')[i] == if suggested[i] == ' ' || suggested[i] == '-' then '+' else suggested[i]
    {
      ReplaceCharAt(suggested, ' ', '+', i);
      ReplaceCharAt(spaced, '-', '+', i);
    }
    ReplaceChar(spaced, '-', '+')
  }

  /** A query holds no space or hyphen, and building the query again changes nothing. */
  lemma SearchQueryNormal(suggested: string)
    ensures ' ' !in SearchQuery(suggested) && '-' !in SearchQuery(suggested)
    ensures SearchQuery(SearchQuery(suggested)) == SearchQuery(suggested)
    ensures SearchQuery(suggested) == suggested <==> ' ' !in suggested && '-' !in suggested
  {
  }

  /** The "Listen Now" link: the fixed search prefix followed by the query. */
  function SearchUrl(suggested: string): (url: string)
    ensures |url| == |SearchUrlPrefix| + |suggested|
    ensures url[..|SearchUrlPrefix|] == SearchUrlPrefix
    ensures url[|SearchUrlPrefix|..] == SearchQuery(suggested)
  {
    SearchUrlPrefix + SearchQuery(suggested)
  }

  /** Everything the result card shows for a vibe. */
  function Card(v: VibeData): (card: VibeCard) {
    var energy := v.energyLevel.GetOr(Unknown);
    var keywords := v.aestheticKeywords.GetOr([]);
    var suggested := v.suggestedMusic.GetOr(NoSuggestion);
    VibeCard(
      v.mood.GetOr(Unknown),
      v.genre.GetOr(Unknown),
      EnergyIcon(energy),
      EnergyText(energy),
      KeywordsHtml(keywords),
      suggested,
      SearchUrl(suggested))
  }

  /** A key that is present is shown unchanged; a missing one is shown as its
      default: "Unknown" for mood, genre and energy level, and "No suggestion
      available" for the track, which the search link is then built from. */
  lemma CardDefaults(v: VibeData)
    ensures Card(v).mood == (if v.mood.Some? then v.mood.value else Unknown)
    ensures Card(v).genre == (if v.genre.Some? then v.genre.value else Unknown)
    ensures var level := if v.energyLevel.Some? then v.energyLevel.value else Unknown;
      Card(v).energyIcon == EnergyIcon(level) && Card(v).energyText == EnergyText(level)
    ensures Card(v).suggestion == (if v.suggestedMusic.Some? then v.suggestedMusic.value else NoSuggestion)
    ensures Card(v).searchUrl == SearchUrlPrefix + SearchQuery(Card(v).suggestion)
  {
  }

  /** Missing keywords are shown as the single "No keywords" chip, present ones
      as their own chips. */
  lemma CardKeywords(v: VibeData)
    ensures v.aestheticKeywords.None? ==> Card(v).keywordsHtml == Tag(NoKeywords)
    ensures v.aestheticKeywords.Some? ==> Card(v).keywordsHtml == KeywordsHtml(v.aestheticKeywords.value)
  {
    KeywordsHtmlAppend([], "");
  }

  /** The default energy level is shown as one battery and the text "Unknown". */
  lemma DefaultEnergyShown()
    ensures EnergyIcon(Unknown) == Battery
    ensures EnergyText(Unknown) == Unknown
  {
    EnergyIconLevels(Unknown);
    TitleOfCapitalised(Unknown);
  }
}
