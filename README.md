# MusicU vibe app — a Dafny model of its deterministic core

MusicU is a single Streamlit page (`app.py`). The user describes themselves and
the page asks Gemini for a "music vibe": mood, genre, energy level, aesthetic
keywords and a suggested track. It shows that vibe on a result card. For a
signed-in user it also keeps a history in Supabase. The user reaches the page
by logging in or by continuing as a guest. Registering does not sign the user
in: they verify their email and then log in.

Almost all of `app.py` is markup, CSS and calls to Gemini and Supabase. This
project models the logic in it that decides something:

- **Result card** (`display_vibe_result`), module `Vibe`:
  - the default used when a key is missing;
  - the battery icon for the energy level, looked up case-insensitively;
  - the title-cased energy text;
  - the keyword chips, with a "No keywords" chip for an empty list;
  - the YouTube search link, in which spaces and hyphens become `+`.
- **Generation** (`generate_music_vibe`), module `Generation`:
  - the prompt template, with the description between quotes;
  - the fixed request settings (model, JSON response mode, system instruction);
  - how each way the call can end becomes either the parsed vibe or a message
    with one of two prefixes.
- **Forms** (`show_auth_page`), module `AuthForms`: the ordered registration
  checks and the login check, and the banner each button press shows.
- **Session** (`st.session_state`), module `Session`:
  - the gate at the top of `main`;
  - the guard of the history panel;
  - the guest button, a successful login and `logout_user`.

  These are a class `SessionState` over a `map<string, Value>`. Its methods
  update the map in place, and pure functions state what each update produces.
- **History**, module `History`:
  - the row that `save_vibe_to_history` writes;
  - what `show_user_history` shows of the rows the store returns: the first
    five, the date cut to ten characters, and keywords joined by " • ".
- **String builtins**, module `Text`: `lower`, `title`, `replace`, `join`
  and slicing, written as functions with lemmas. The module also holds two
  helpers that the app does not call, `EndsWith` and `Repeat`. They are used
  only to state contracts. `Wrappers` holds `Option` and `Result`.

Several things are inputs to the model rather than parts of it:

- the Gemini reply: it raises, or it answers with a text that may be None;
- `json.loads`: it gives an object or a diagnostic;
- the identity provider's reply;
- whether a Supabase client exists;
- whether sign-out returned;
- the clock's timestamp.

Three points where the code behaves differently than a reader might expect:

- An empty reply text goes to `json.loads` like any other text. It is reported
  as a parse failure, not as a separate "empty output" error.
- A missing key is not filled in when the reply is parsed. The parsed object is
  returned unchanged. Defaults are applied only when the card is drawn. The
  saved history row stores the missing key as NULL, and the history panel
  prints it as "None" (`History.SavedVibeShownAgain`).
- The failure messages carry one of two fixed prefixes: "Failed to parse AI
  response: " and "Failed to generate music vibe: ". `generate_music_vibe`
  does not sort failures into credential or rate-limit errors by scanning
  their text.

## Model

| member | source | states |
|---|---|---|
| `Text.Lower` | app.py:247 | lower-casing keeps the length and maps each character on its own: an upper-case ASCII letter to its lower-case letter, every other character to itself |
| `Text.LowerChar` | app.py:247 | an upper-case ASCII letter becomes the letter 32 code points on, and every other character is kept |
| `Text.UpperChar` | app.py:253 | a lower-case ASCII letter becomes the letter 32 code points back, and every other character is kept |
| `Text.SameIgnoringCaseLower` | app.py:247 | strings that differ only in letter case lower-case to the same string |
| `Text.TitleFromKeepsLetters` | app.py:253 | `title()` keeps the length and changes nothing but letter case |
| `Text.TitleFromIdempotent` | app.py:253 | title-casing a title-cased string changes nothing |
| `Text.TitleOfCapitalised` | app.py:253 | a capitalised word such as the default "Unknown" is shown unchanged |
| `Text.TitleFromAt` | app.py:253 | each letter is upper-cased when the character before it is not cased (or it starts the string) and lower-cased when it is; the length is kept |
| `Text.Title` | app.py:253 | `str.title()`; its contract is stated pointwise by TitleFromAt, and by TitleFromKeepsLetters, TitleFromIdempotent and TitleOfCapitalised |
| `Text.ReplaceChar` | app.py:279 | `replace` of one character by one character keeps the length |
| `Text.ReplaceCharAt` | app.py:279 | every occurrence is replaced and every other character is kept in place |
| `Text.ConcatAppend` | app.py:262 | `"".join` of two lists is the join of the first followed by the join of the second |
| `Text.ConcatOfFew` | app.py:262 | `"".join` of no parts is "" and of one part is that part |
| `Text.Concat` | app.py:262 | `"".join`; its contract is stated by ConcatOfFew and ConcatAppend, and for the chip markup by Vibe.KeywordsHtmlAppend |
| `Text.JoinAppend` | app.py:406 | adding a part to a non-empty `sep.join` adds one separator and the part at the end |
| `Text.Join` | app.py:406 | `sep.join`; its contract is stated by JoinAppend and, for the keywords line, by History.KeywordsLine |
| `Text.Take` | app.py:396 | the slice `[:n]` is a prefix of length at most `n` |
| `Text.Repeat` | app.py:247 | a helper for the icon literals of the table: `n` copies of a one-character string are `n` characters, each that character |
| `Vibe.EnergyBars` | app.py:247 | the reference count of batteries is between one and three |
| `Vibe.EnergyIcon` | app.py:246-247 | the table lookup on the lower-cased level gives exactly the batteries of the reference case split |
| `Vibe.EnergyIconLevels` | app.py:246-247 | "low", "medium" and "high" in any letter case give one, two and three batteries; every other level, "Unknown" included, gives one |
| `Vibe.EnergyIconIgnoresCase` | app.py:247 | levels that differ only in letter case get the same icon |
| `Vibe.EnergyText` | app.py:253 | the energy text is the level title-cased: same length, same letters up to case, and already in title case |
| `Vibe.KeywordTags` | app.py:259-264 | an empty list gives exactly one "No keywords" chip; otherwise one chip per keyword, in order |
| `Vibe.KeywordsHtml` | app.py:259-264 | the joined chip markup; its contract is stated by KeywordTags, KeywordsHtmlAppend and CardKeywords |
| `Vibe.KeywordsHtmlAppend` | app.py:259-264 | adding a keyword adds exactly its chip at the end of the markup and nothing else |
| `Vibe.SearchQuery` | app.py:278-279 | the query has the track's length; each space or hyphen is `+` and every other character is unchanged |
| `Vibe.SearchQueryNormal` | app.py:279 | a query holds no space or hyphen; building it again changes nothing; it equals the track exactly when the track has neither |
| `Vibe.SearchUrl` | app.py:280 | the link is the fixed YouTube results prefix followed by the query |
| `Vibe.Card` | app.py:231-280 | the derivations of the result card; its contract is stated by CardDefaults, CardKeywords and DefaultEnergyShown |
| `Vibe.CardDefaults` | app.py:231-280 | a present key is shown unchanged; a missing mood or genre shows "Unknown", a missing energy level is looked up and title-cased as "Unknown", a missing track shows "No suggestion available" and the search link is built from what is shown |
| `Vibe.CardKeywords` | app.py:259-264 | missing keywords show the single "No keywords" chip; present ones show their own chips |
| `Vibe.DefaultEnergyShown` | app.py:246-253 | the default level "Unknown" shows one battery and the text "Unknown" |
| `Generation.Prompt` | app.py:165-181 | the prompt is the fixed template head, the description verbatim, then the fixed tail |
| `Generation.DescriptionOf` | app.py:172 | a description read from a text is one whose prompt is that text |
| `Generation.PromptRoundTrip` | app.py:172 | the description is read back from its prompt |
| `Generation.PromptInjective` | app.py:165-181 | distinct descriptions give distinct prompts |
| `Generation.BuildRequest` | app.py:183-189 | every request uses the same model, JSON response mode and system instruction, and carries the description's prompt |
| `Generation.ReadMessage` | app.py:199-202 | a handler and diagnostic read from a message reproduce that message |
| `Generation.Message` | app.py:199-202 | the two failure f-strings; its contract is stated by ReadMessage, MessageRoundTrip and FailureAlwaysPrefixed |
| `Generation.MessageRoundTrip` | app.py:199-202 | the two prefixes are told apart: the handler and the diagnostic are read back from every failure message |
| `Generation.Outcome` | app.py:193-202 | success exactly when a text comes back and parses, returning the parsed object unchanged; a None text goes to the generic handler with the "no content" text; a decode error goes to the parse handler with its diagnostic; a raised call goes to the generic handler |
| `Generation.GenerateMusicVibe` | app.py:160-202 | the service is asked with the request built from the description; the vibe is returned unchanged, or a message from which the outcome's handler and diagnostic are read back |
| `Generation.NoContentMessage` | app.py:193-202 | a None reply fails with "Failed to generate music vibe: No content received from AI response" |
| `Generation.FailureAlwaysPrefixed` | app.py:199-202 | every failure message starts with exactly one of the two prefixes |
| `AuthForms.CheckRegistration` | app.py:350-370 | any empty field, else a confirmation mismatch, else a password under 6 characters; valid exactly when none of these applies |
| `AuthForms.AcceptedPasswordLength` | app.py:350-352 | an accepted password matches its confirmation and has at least 6 characters; one of exactly 6 is accepted |
| `AuthForms.Register` | app.py:349-370 | sign-up is requested exactly when the checks pass and a database client exists; the success and info banners show exactly when the provider answers with a user; each failed check, a missing client, an answer without a user and a raised sign-up show their own message |
| `AuthForms.SignIn` | app.py:319-336 | sign-in is requested exactly when both fields are filled and a client exists; a user is signed in, with the success banner, exactly when the provider answers with one; empty fields, a missing client, an answer without a user and a raised sign-in show their own message |
| `Session.ShowsAuthPage` | app.py:424-426 | the login page is shown exactly when neither `user` nor `guest_mode` is in the session |
| `Session.ShowsHistory` | app.py:382 | the history panel is drawn exactly when the session holds a user and a database client exists, so only past the gate |
| `Session.SignedOut` | app.py:121-130 | after a sign-out that returns, `user` and `user_email` are gone and every other key keeps its value; after one that raises, the session is unchanged |
| `Session.AsGuest` | app.py:376-378 | the guest flag is set and nothing else changes |
| `Session.AfterSignIn` | app.py:324-326 | the user and the email typed are stored only when a user was signed in; other keys are kept |
| `Session.GateAfterSignOut` | app.py:121-130 | logout returns to the login page exactly when the guest flag is not set; a failed sign-out leaves the gate as it was |
| `Session.GateAfterEntering` | app.py:376-378 | the guest button and a successful login both pass the gate; the guest button gives no history to a session without a user, and the login opens it when a client exists |
| `Session.UpdatesKeepConsistent` | app.py:324-328 | every session update keeps `user` and `user_email` together |
| `Session.SessionState.constructor` | app.py:424-426 | a new session is empty and shows the login page |
| `Session.SessionState.ContinueAsGuest` | app.py:376-378 | the session becomes `AsGuest` of the old one |
| `Session.SessionState.Logout` | app.py:121-130 | the session becomes `SignedOut` of the old one, deleting each key only if present |
| `Session.SessionState.PressLogin` | app.py:319-336 | shows the form's notice and stores the signed-in user and email |
| `History.NewRow` | app.py:136-145 | the row copies the vibe's fields as they are, with no defaults |
| `History.KeywordsLine` | app.py:405-407 | the keywords line is present exactly for a non-empty list; a single keyword is shown alone |
| `History.KeywordsLineAppend` | app.py:406 | one more keyword adds " • " and that keyword at the end |
| `History.EntryOf` | app.py:396-408 | the title is exactly the note, mood, " - ", genre, " (", the first ten characters of `created_at`, and ")"; the body shows the description and the stored mood, genre, energy, keywords line and track |
| `History.EntryTitle` | app.py:396 | the expander title f-string; its contract is stated by the title clauses of EntryOf |
| `History.ColumnText` | app.py:396-408 | a stored text is shown as it is, and a NULL column as "None" |
| `History.HistoryPanel` | app.py:394-417 | no rows give the placeholder; otherwise the first five rows (fewer if fewer came back), one entry each, in the order returned |
| `History.SavedVibeShownAgain` | app.py:139-143 | a saved mood, genre or track shows in the history as on the card; a saved energy level shows as stored in the history but title-cased on the card; keywords show as a " • " line in the history but as chips on the card; a missing mood shows "Unknown" on the card but "None" in the history |

## Left out

- Page rendering: markup, CSS, columns, tabs, expanders, `st.rerun`, and the
  content of `main` after the gate. This is presentation only; the model keeps
  the strings the page derives, not the HTML around them.
- The Gemini client: its configuration and the network call. The reply is an
  input. An error raised by the call and one raised by reading `response.text`
  are the same case (`Reply.Raised`).
- `json.loads`: it is an input function. A JSON value that is not an object,
  a key whose value is `null`, and a value of another type than the field's
  are not represented. (On a null energy level the page would fail at
  `.lower()`.)
- The diagnostic `print` calls in `logout_user`, `save_vibe_to_history` and
  `get_user_history` (app.py:130, 147, 157). They only write to the server log.
- Supabase: client creation, sign-up, sign-in, sign-out, the table insert and
  select, and the SQL setup call. This is network I/O; its outcome is an input.
  The store's ordering by newest and its limit of ten are not modelled.
- `datetime.now()` and the environment-variable reads. These are ambient
  inputs; the timestamp is a parameter of `History.NewRow`.
- Text.Lower: maps only the ASCII letters; Python's `lower()` also maps other
  scripts. No non-ASCII character lower-cases onto the ASCII letters of "low",
  "medium" or "high", so the icon lookup is unaffected.
- Text.TitleFromKeepsLetters: title-casing is modelled for ASCII letters only;
  other characters pass through unchanged and count as not cased.
- The failure classification by message text and the warning for a short
  description are not in the modelled part of `app.py`. `app.py` beyond line
  1126 is not part of this model.
