# CalmMind AI core in Dafny

CalmMind AI is a one-page stress companion. The user describes how they feel.
A hosted text generator classifies the description as `low`, `medium` or `high`
stress. For that level the page shows the generated motivational quotes (every
non-blank line of the reply, which the prompt asks to hold two), a generated
success story, two fixed tips and two video-search links. Every
completed request appends one row to the interaction log `stress_logs.csv`.
A mood-tracker tab charts the mean stress score per day, and a journal tab
lists the rows most recent first.

This project models that core in Dafny and proves properties of it:

- `wrappers.dfy`: module `Wrappers`, the `Option` type.
- `text.dfy`: module `Text`. It models Python's `str.strip` (over the
  characters `str.isspace` accepts), `lower`, `replace`, `split` and `join`,
  with their round trips.
- `stress.dfy`: module `Stress`. It covers the taxonomy, the few-shot
  classifier prompt and request, and the normalisation of the classifier's
  reply (`strip().lower()`, otherwise `medium`).
- `content.dfy`: module `Content`. It covers:
  - the quote prompt table and the quote-response parser
  - the success story and its fixed fallback message
  - the tips and video-query tables, and the story search query
  - the YouTube link builder
  - the daily affirmation index
  - the emotion tags
- `interaction_log.dfy`: module `InteractionLog`. The log file is `None`
  while it is absent; otherwise it is a header line followed by row lines.
  It models:
  - `log_entry` as the pure `WriteRow` and as the `LogFile.LogEntry` method
  - reads of the log
  - the journal view, which is the rows reversed
- `trend.dfy`: module `Trend`. It models the score map and
  `groupby("date").mean()`, using exact reals.
- `session.dfy`: module `Session`. It models the session state
  (`stress_level`, `quotes`, `story`) and the "Get AI Support",
  "Refresh Quotes" and "Refresh Story" actions. Each action is a pure
  transition function, run by a class `Session` whose methods update its
  three fields and write through a `LogFile`.

The hosted generator is an oracle `gen: Request -> Option<string>`. A
`Request` carries the model name, the prompt, the output-token budget and the
temperature. `None` stands for a call that raises: a network, authentication
or quota error, or a response without generations.

In `app.py`, `classify_stress` and `generate_quotes` do not catch such an
error. So in the model a raising classifier call stops the request with
nothing stored. A raising quote call stops it after the new level is already
stored. Only `get_success_story` falls back, to one fixed message.

### Behaviour worth knowing

- **Quote lines.** `app.py:83` strips whitespace from each line of the reply
  and drops blank lines; nothing else is removed, so a numbering or bullet
  marker the generator writes stays part of the quote.
- **Uncaught failures.** A failure of the classifier or quote call is not
  caught (`app.py:58-83`): `Stress.Classify` and `Content.GenerateQuotes`
  give `None`. The `medium` default applies only to a reply outside the
  taxonomy (`app.py:74`).
- **Story fallback.** When the story call raises, the story is one fixed
  message (`app.py:96-97`).
- **Empty story.** When the generator answers the story prompt with
  whitespace only, the story is `""` (`app.py:95`).
  `Content.SuccessStory`'s ensures states exactly when the story is empty.
- **Link escaping.** The link builder replaces spaces with `+` and escapes
  nothing else (`app.py:100`).
- **Unused emotion tags.** `emotion_tags` (`app.py:50`) is computed and never
  used afterwards.

## Model

| member | source | states |
|---|---|---|
| Text.FirstNonSpace | app.py:73 | the index of the first non-whitespace character; everything before it is whitespace |
| Text.EndNonSpace | app.py:73 | the end of the last non-whitespace character within a range; everything after it is whitespace |
| Text.Strip | app.py:73 | `str.strip`: the result is no longer than the input, has no whitespace at either end, uses only the input's characters, and is empty exactly when the input is all whitespace |
| Text.StripUnique | app.py:73 | stripping whitespace + trimmed core + whitespace gives exactly that core |
| Text.StripOfTrimmed | app.py:73 | a string with no whitespace at its ends strips to itself |
| Text.StripIdempotent | app.py:83 | stripping twice is stripping once |
| Text.StripCutsSpace | app.py:73 | any string is leading whitespace, then its stripped form, then trailing whitespace |
| Text.StripIgnoresPadding | app.py:73 | extra whitespace around a string does not change its stripped form |
| Text.AllSpaceConcat | app.py:73 | a concatenation of whitespace-only strings is whitespace-only |
| Text.Lower | app.py:73 | `lower`: same length, each character lowered (ASCII capitals) |
| Text.ReplaceChar | app.py:100 | `replace(a, b)` for single characters: same length, each `a` becomes `b`, every other character kept |
| Text.Split | app.py:83 | `split(sep)`: one more part than separators in the input, no part contains the separator |
| Text.OccurrencesConcat | app.py:83 | the number of separators in a concatenation is the sum over its parts |
| Text.OccurrencesOfSlice | app.py:83 | a slice holds no more separators than the whole string |
| Text.OccurrencesZero | app.py:83 | a string holds no separator exactly when its separator count is zero |
| Text.JoinSplit | app.py:83 | joining the parts of a split with the separator gives back the input |
| Text.JoinCons | app.py:50 | `join` of a part followed by more parts is the part, the separator, then the join of the rest |
| Text.JoinHead | app.py:50 | a prefix glued onto the first part prefixes the whole join |
| Text.Join | app.py:50 | `sep.join(parts)`: when no part holds the separator's first character, that character occurs once per separator between each two parts and nowhere else |
| Text.SplitPrefix | app.py:83 | a separator-free prefix only extends the first part of a split |
| Text.SplitSeparatorFirst | app.py:83 | a leading separator adds an empty first part |
| Text.SplitJoinPadded | app.py:50 | splitting `", ".join(parts)` at `','` gives as many pieces as parts: the first is the first part, every later one is the part after one space |
| Stress.ParseLabel | app.py:74 | membership in `["low", "medium", "high"]`: gives a level exactly when the string is that level's label |
| Stress.ClassifierPrompt | app.py:59-71 | the few-shot prompt starts with the fixed preamble (instruction and the three exemplars), then the user's text verbatim, and ends with the fixed closing `"\nStress Level:` |
| Stress.ClassifierPromptInjective | app.py:70 | different descriptions give different classifier prompts |
| Stress.ClassifierRequest | app.py:72 | model `command-r-plus`, one output token, temperature 0, the classifier prompt |
| Stress.Normalise | app.py:73 | `strip().lower()` of the reply: no longer than the reply, and empty exactly when the reply is all whitespace |
| Stress.LevelOfReply | app.py:73-74 | the level whose label the stripped, lower-cased reply equals, and `medium` when it equals none |
| Stress.Classify | app.py:58-74 | fails exactly when the call raises; otherwise the level of the reply |
| Stress.LowerOfLabel | app.py:73 | the labels are already lower case |
| Stress.LevelOfLabel | app.py:73-74 | a reply that is exactly a label gives that level |
| Stress.LevelIgnoresPadding | app.py:73 | surrounding whitespace does not change the level |
| Stress.LowerOfCapitalHigh | app.py:73 | `"HIGH".lower()` is `"high"` |
| Stress.CapitalisedReply | app.py:73-74 | the reply `" HIGH\n"` is classified `high` |
| Stress.EmptyReply | app.py:74 | an empty reply defaults to `medium` |
| Stress.NotApplicableReply | app.py:74 | the reply `"n/a"` defaults to `medium` |
| Stress.DescriptiveReply | app.py:74 | the reply `"High stress"` defaults to `medium`: the label must match exactly |
| Content.QuotePrompt | app.py:77-81 | the level's quote prompt, each starting `Give me 2 ` or `Give 2 `: it asks for two quotes |
| Content.QuotePromptsDiffer | app.py:77-81 | the three levels have three different quote prompts |
| Content.QuoteRequest | app.py:77-82 | the level's quote prompt, `command-r-plus`, 100 output tokens, temperature 0.9 |
| Content.KeepNonBlank | app.py:83 | the kept lines are stripped and non-blank, no more than the input lines, and free of line breaks when the input lines are |
| Content.NonBlankLines | app.py:83 | the indices of the non-blank lines: in range, strictly increasing, and every non-blank line's index is present |
| Content.KeepNonBlankInOrder | app.py:83 | the k-th kept line is the stripped k-th non-blank line: order is kept and nothing else is dropped |
| Content.ResponseLines | app.py:83 | splitting the stripped reply gives at least one line, none containing a line break |
| Content.ParseQuotes | app.py:83 | each quote is non-empty, has no whitespace at its ends and contains no line break; no more quotes than lines |
| Content.ParseQuotesBound | app.py:83 | no more quotes than lines in the raw reply |
| Content.ParseQuotesInOrder | app.py:83 | the quotes are the stripped non-blank lines of the reply, in order |
| Content.SplitTwoQuoteResponse | app.py:83 | `a + "\n\n  " + b` splits into `a`, an empty line and `"  " + b` |
| Content.KeepTwoQuoteLines | app.py:83 | keeping the non-blank lines of `[a, "", "  " + b]` gives `[a, b]` |
| Content.TwoQuoteResponse | app.py:83 | two quotes separated by a blank line and indentation parse to exactly those two quotes |
| Content.GenerateQuotes | app.py:76-83 | fails exactly when the quote call raises; otherwise the quotes parsed from the reply |
| Content.StoryPrompt | app.py:86-92 | the story prompt starts with the fixed preamble, then the user's text verbatim, and ends with the fixed instructions |
| Content.StoryPromptInjective | app.py:87 | different descriptions give different story prompts |
| Content.StoryRequest | app.py:94 | the story prompt, `command-r-plus`, 250 output tokens, temperature 0.7 |
| Content.SuccessStory | app.py:85-97 | the fixed fallback message when the call raises, otherwise the stripped reply; never padded; empty exactly when the reply is whitespace only |
| Content.Tips | app.py:137-141 | two different tips per level |
| Content.TipsDisjoint | app.py:137-141 | no tip is shared between two levels |
| Content.VideoQuery | app.py:146-150 | each level's video query is non-empty with no whitespace at its ends |
| Content.VideoQueriesDiffer | app.py:146-150 | the three levels have three different video queries |
| Content.StoryQuery | app.py:151 | `real success stories overcoming <label> stress`, with the label at a fixed position |
| Content.StoryQueryDeterminesLevel | app.py:151 | different levels give different story queries |
| Content.SearchLink | app.py:99-100 | the fixed search URL followed by the query with every space replaced by `+`, all other characters kept, and no space after the prefix |
| Content.SearchLinkConflatesPlus | app.py:100 | `"a b"` and `"a+b"` give the same link, because nothing else is escaped |
| Content.Affirmation | app.py:44-45 | the affirmation of a day is one of the five |
| Content.AffirmationPeriodic | app.py:44-45 | the affirmation repeats every five days |
| Content.EveryAffirmationWithinFiveDays | app.py:37-45 | any five consecutive days show every affirmation |
| Content.EmotionKey | app.py:23-27 | each multi-select key is an emoji, a space and a word |
| Content.EmotionKeysDistinct | app.py:23-27 | the eight keys are distinct, so the dictionary has one entry per emotion |
| Content.EmotionTag | app.py:23-27 | every emotion tag is non-empty, has no whitespace at its ends and no comma |
| Content.Tags | app.py:50 | one tag per selected emotion, and every selected emotion's tag among them |
| Content.EmotionTags | app.py:50 | empty without a selection; otherwise exactly one comma between each two tags and none elsewhere |
| Content.EmotionTagsRecoverable | app.py:50 | splitting the joined tags at commas and stripping gives back each selected emotion's tag, one per selection |
| InteractionLog.MoodLabel | app.py:21 | each mood label is an emoji, a space and a word |
| InteractionLog.MoodLabelInjective | app.py:21 | different moods have different labels, so a stored label names its mood |
| InteractionLog.WriteRow | app.py:102-114 | creates the file as the header and the row when absent; otherwise appends the row and keeps every earlier line |
| InteractionLog.Read | app.py:163-164 | no data exactly for an absent file; otherwise one row per line after the header |
| InteractionLog.ReadInjective | app.py:163-164 | a well-formed file is determined by what reading it gives |
| InteractionLog.WriteThenRead | app.py:111-114 | after a write, the rows read are the earlier rows followed by the new one |
| InteractionLog.FirstEntry | app.py:113-114 | the first write creates the file with the header, and it reads as that one row |
| InteractionLog.WriteAll | app.py:111-114 | any sequence of writes keeps the file well formed |
| InteractionLog.WriteAllThenRead | app.py:111-114 | after any number of writes, the rows read are the earlier rows followed by the new ones, in write order |
| InteractionLog.WritesFromAbsent | app.py:111-114 | from an absent file, n writes give the header once followed by the n rows in order; no write leaves no file |
| InteractionLog.HeaderOnlyFirst | app.py:112-114 | the header is the first line and no other |
| InteractionLog.Reverse | app.py:177 | `[::-1]`: same length, the k-th element from the front is the k-th from the back |
| InteractionLog.ReverseReverse | app.py:177 | reversing twice gives the rows back |
| InteractionLog.JournalView | app.py:174-179 | no entries exactly when there is no file; otherwise the rows in reverse order |
| InteractionLog.JournalShowsLatestFirst | app.py:125 | the entry just written heads the journal |
| InteractionLog.LogFile.Absent | app.py:22 | the log starts without a file |
| InteractionLog.LogFile.LogEntry | app.py:102-114 | the file becomes `WriteRow` of the old file and the new row, and stays well formed |
| InteractionLog.LogFile.Contents | app.py:163-164 | no data exactly when the file does not exist |
| Trend.Score | app.py:166 | the scores are between 1 and 3 |
| Trend.BeforeIrreflexive | app.py:167 | the date order is strict |
| Trend.BeforeTransitive | app.py:167 | the date order is transitive |
| Trend.BeforeTotal | app.py:167 | any two different dates are ordered |
| Trend.Insert | app.py:167 | inserting a date into an ascending list of dates keeps it ascending, adds that date and nothing else |
| Trend.Dates | app.py:167 | the group keys: strictly ascending, each distinct date of the rows exactly once |
| Trend.Count | app.py:167 | a date has rows exactly when it occurs in the log |
| Trend.Total | app.py:166-167 | a date's score total lies between 1 and 3 times its row count |
| Trend.Mean | app.py:167 | a date's mean score lies between 1 and 3 |
| Trend.QuotientBounds | app.py:167 | a total between n and 3n divided by n lies between 1 and 3 |
| Trend.Trend | app.py:165-167 | one point per distinct date, dates strictly ascending, each the exact mean score of its rows, between 1 and 3 |
| Trend.SameDayLowAndHigh | app.py:166-167 | a `low` and a `high` entry on one day chart as 2 |
| Trend.SingleMedium | app.py:166-167 | a single `medium` entry charts as 2 |
| Trend.MoodTracker | app.py:163-169 | no chart exactly when there is no file; otherwise the trend of the rows |
| Text.Blank | app.py:118 | `not s.strip()` holds exactly when the string is all whitespace, the empty one included |
| Session.Decide | app.py:117-125 | rejected exactly for blank input; stops at the classifier exactly when that call raises; stops at the quotes exactly when that call raises; otherwise completes |
| Session.AfterSubmit | app.py:117-125 | the new session state keeps the invariant: quotes and story only with a level, every quote a parsed one |
| Session.SubmitBlank | app.py:118-119 | whitespace-only input is rejected and leaves the session state unchanged |
| Session.SubmitClassifierRaises | app.py:122 | a raising classifier call leaves the session state unchanged |
| Session.SubmitQuotesRaise | app.py:122-123 | a raising quote call leaves the new level stored and the earlier quotes and story in place |
| Session.SubmitCompletes | app.py:122-124 | a completed request stores the reply's level, the quotes parsed from the quote reply and the story |
| Session.AfterRefreshQuotes | app.py:133-134 | only the quotes change: new quotes for the stored level, or unchanged on a raising call |
| Session.AfterRefreshStory | app.py:157-158 | only the story changes, to the story for the current text |
| Session.Session.constructor | app.py:13-18 | no level, no quotes, an empty story |
| Session.Session.Submit | app.py:117-125 | the new state is `AfterSubmit` of the old one; the log gains exactly the row `(date, mood, level, text, journal)` when the request completes, and is untouched otherwise |
| Session.Session.RefreshQuotes | app.py:133-134 | the new state is `AfterRefreshQuotes` of the old one; the log is not in its frame |
| Session.Session.RefreshStory | app.py:157-158 | the new state is `AfterRefreshStory` of the old one; the log is not in its frame |
| Session.SpacedHighIsHigh | app.py:73-74 | the reply `" high"` is classified `high` |
| Session.HighStressScenario | app.py:117-125 | a description the classifier answers with `" high"` completes; a fresh log then holds that one row, with level `high` |
| Session.BlankScenario | app.py:117-119 | whitespace-only input is rejected, no level is stored, and no log file appears |

## Left out

- The page itself is not modelled: Streamlit widgets, tabs, markdown
  rendering, the spinner, the warning text and the chart drawing. The settings
  tab is static text.
- The generation client (`cohere.Client`) and the API secret are not
  modelled. The model is an arbitrary oracle parameter whose failure is
  `None`; what the model's replies contain is not constrained.
- There is no clock. The entry date (`datetime.now().strftime("%Y-%m-%d")`)
  and the day of the month for the affirmation are parameters.
- CSV serialisation and parsing are not modelled: quoting, escaping, and
  pandas' type inference (an empty journal read back as NaN). The file is a
  sequence of structured header and row lines.
- `pd.to_datetime` is not modelled. Dates stay the strings the log holds; for
  `%Y-%m-%d` their lexicographic order is the chronological order.
- The means are exact reals, not floating point.
- Concurrent writers to the log file are not modelled, nor are the mechanics
  of Streamlit's reruns.
- An exception from the classifier or quote call is not modelled as an
  exception. It becomes the outcome `ClassifierRaised` or `QuotesRaised`, and
  the request ends there.
- Failing file operations are not modelled. Writes and reads of the log
  always succeed in the model, while `to_csv` and `read_csv` errors are
  uncaught in `app.py`. A write that fails raises after the session state is
  already stored (`app.py:111-114`, `app.py:122-125`). A read that fails
  raises from the mood-tracker or journal tab (`app.py:164`, `app.py:175`).
- `InteractionLog.WellFormed` assumes the log file is only ever written by
  `log_entry`; a pre-existing `stress_logs.csv` with other contents is not
  modelled.
- The gratitude input (`app.py:54`) and the `random` import are never used,
  so they are not modelled.
- Text.Lower: lowers ASCII capitals only. Python's `lower()` also lowers
  non-ASCII letters; the labels and the exemplar replies are ASCII.
- Content.EmotionTags: the comma-separated tag string is modelled, but
  `app.py` never uses it.
- InteractionLog.MoodLabel: the mood is stored as the `Mood` value. The label
  text it maps to (`app.py:21`) is the string the CSV holds.
