/** The vibe history: the row `save_vibe_to_history` writes for a generated
    vibe, and what `show_user_history` shows of the rows the store returns.
    The store itself (insert, select, ordering, its limit of ten) is not
    modelled; its answer is an input. */
module History {
  import opened Wrappers
  import opened Text
  import Vibe

  /** Rows shown, out of those returned. */
  const ShownRows := 5
  /** Characters of `created_at` shown: the date part of an ISO timestamp. */
  const DateLength := 10
  /** The separator between keywords, " • " (U+2022). */
  const KeywordSeparator := " \U{2022} "
  /** The note emoji at the head of each entry title, U+1F3B5. */
  const Note := "\U{1F3B5}"

  /** A stored row. The vibe fields are stored as the vibe had them: a missing
      key is stored as NULL (None), not as the display default. */
  datatype Row = Row(
    userId: string,
    description: string,
    mood: Option<string>,
    genre: Option<string>,
    energyLevel: Option<string>,
    aestheticKeywords: Option<seq<string>>,
    suggestedMusic: Option<string>,
    createdAt: string)

  /** One expander of the history panel. */
  datatype Entry = Entry(
    title: string,
    description: string,
    mood: string,
    genre: string,
    energy: string,
    keywords: Option<string>,
    music: string)

  /** The row written after a successful generation; `now` is the ISO timestamp of the clock. */
  function NewRow(userId: string, description: string, v: Vibe.VibeData, now: string): (r: Row)
    ensures r.userId == userId && r.description == description && r.createdAt == now
    ensures r.mood == v.mood && r.genre == v.genre && r.energyLevel == v.energyLevel
    ensures r.aestheticKeywords == v.aestheticKeywords && r.suggestedMusic == v.suggestedMusic
  {
    Row(userId, description, v.mood, v.genre, v.energyLevel, v.aestheticKeywords, v.suggestedMusic, now)
  }

  /** How an f-string shows a nullable text column: NULL reads as "None". */
  function ColumnText(column: Option<string>): (text: string)
    ensures column.Some? ==> text == column.value
    ensures column.None? ==> text == "None"
  {
    column.GetOr("None")
  }

  /** The keywords line: present only for a non-empty list, which it joins with " • ". */
  function KeywordsLine(keywords: Option<seq<string>>): (line: Option<string>)
    ensures line.Some? <==> keywords.Some? && keywords.value != []
    ensures line.Some? && |keywords.value| == 1 ==> line.value == keywords.value[0]
  {
    if keywords.Some? && keywords.value != [] then Some(Join(KeywordSeparator, keywords.value)) else None
  }

  /** One more keyword adds the separator and that keyword at the end of the line. */
  lemma KeywordsLineAppend(keywords: seq<string>, k: string)
    requires keywords != []
    ensures KeywordsLine(Some(keywords + [k])) == Some(KeywordsLine(Some(keywords)).value + KeywordSeparator + k)
  {
    JoinAppend(KeywordSeparator, keywords, k);
  }

  function EntryTitle(row: Row): (title: string) {
    Note + " " + ColumnText(row.mood) + " - " + ColumnText(row.genre) + " (" + Take(row.createdAt, DateLength) + ")"
  }

  /** The expander for one row: the title carries mood, genre and the first
      ten characters of `created_at`; the body shows the stored columns, a
      NULL one as "None". */
  function EntryOf(row: Row): (e: Entry)
    ensures Note + " " + ColumnText(row.mood) + " - " + ColumnText(row.genre) + " (" <= e.title
    ensures |e.title| == |Note + " " + ColumnText(row.mood) + " - " + ColumnText(row.genre) + " ("|
                         + |Take(row.createdAt, DateLength)| + 1
    ensures EndsWith(e.title, " (" + Take(row.createdAt, DateLength) + ")")
    ensures e.description == row.description
    ensures e.mood == ColumnText(row.mood) && e.genre == ColumnText(row.genre)
    ensures e.energy == ColumnText(row.energyLevel) && e.music == ColumnText(row.suggestedMusic)
    ensures e.keywords == KeywordsLine(row.aestheticKeywords)
  {
    Entry(EntryTitle(row), row.description, ColumnText(row.mood), ColumnText(row.genre), ColumnText(row.energyLevel),
          KeywordsLine(row.aestheticKeywords), ColumnText(row.suggestedMusic))
  }

  /** The panel for the rows the store returned: the empty-history placeholder
      (None) when there are none, otherwise one entry for each of the first
      five rows, in the order returned. */
  function HistoryPanel(rows: seq<Row>): (panel: Option<seq<Entry>>)
    ensures panel.None? <==> rows == []
    ensures panel.Some? ==> |panel.value| == (if |rows| < ShownRows then |rows| else ShownRows)
    ensures panel.Some? ==> forall i :: 0 <= i < |panel.value| ==> panel.value[i] == EntryOf(rows[i])
  {
    if rows == [] then None
    else
      var first := if |rows| < ShownRows then rows else rows[..ShownRows];
      Some(seq(|first|, i requires 0 <= i < |first| => EntryOf(first[i])))
  }

  /** A saved mood, genre or track is shown in the history as it was on the
      result card. The other fields differ: the card title-cases the energy
      level while the history prints it as stored; the card shows keyword
      chips while the history shows a " • " line; and a vibe saved without a
      mood shows "Unknown" on the card but "None" in the history. */
  lemma SavedVibeShownAgain(userId: string, description: string, v: Vibe.VibeData, now: string)
    ensures v.mood.Some? ==> EntryOf(NewRow(userId, description, v, now)).mood == Vibe.Card(v).mood
    ensures v.genre.Some? ==> EntryOf(NewRow(userId, description, v, now)).genre == Vibe.Card(v).genre
    ensures v.suggestedMusic.Some? ==> EntryOf(NewRow(userId, description, v, now)).music == Vibe.Card(v).suggestion
    ensures v.mood.None? ==>
      (EntryOf(NewRow(userId, description, v, now)).mood == "None" && Vibe.Card(v).mood == Vibe.Unknown)
    ensures v.energyLevel.Some? ==>
      (EntryOf(NewRow(userId, description, v, now)).energy == v.energyLevel.value
       && Vibe.Card(v).energyText == Title(v.energyLevel.value))
    ensures v.aestheticKeywords.Some? ==>
      (EntryOf(NewRow(userId, description, v, now)).keywords == KeywordsLine(v.aestheticKeywords)
       && Vibe.Card(v).keywordsHtml == Vibe.KeywordsHtml(v.aestheticKeywords.value))
  {
    Vibe.CardDefaults(v);
    Vibe.CardKeywords(v);
  }
}
