/** The level-conditioned content: generated quotes and their line parser, the
    generated success story with its fixed fallback, and the static tables
    (tips, video queries, the story query, daily affirmations, emotion tags)
    together with the YouTube search-link builder. */
module Content {
  import opened Wrappers
  import opened Text
  import opened Stress

  // ---------------------------------------------------------------- quotes

  /** The quote prompt of each level; each asks for two quotes. The literals
      are written in pieces that end at the words telling them apart. */
  function QuotePrompt(level: Level): (p: string)
    ensures |p| >= 10 && (p[..10] == "Give me 2 " || p[..7] == "Give 2 ")
  {
    match level
    case Low => "Give me 2 " + "short " + "and light motivational quotes for someone feeling slightly stressed."
    case Medium => "Give 2 " + "strong " + "motivational quotes for someone feeling overwhelmed with work or responsibilities."
    case High => "Give 2 " + "powerful " + "quotes for someone going through serious emotional stress or burnout."
  }

  /** The three levels have three different quote prompts. */
  lemma QuotePromptsDiffer(a: Level, b: Level)
    requires a != b
    ensures QuotePrompt(a) != QuotePrompt(b)
  {
    assert QuotePrompt(Low)[5] == 'm' && QuotePrompt(Medium)[5] == '2' && QuotePrompt(High)[5] == '2';
    assert QuotePrompt(Medium)[7] == 's' && QuotePrompt(High)[7] == 'p';
  }

  function QuoteRequest(level: Level): (q: Request)
    ensures q.prompt == QuotePrompt(level)
    ensures q.model == ModelName && q.maxTokens == 100 && q.temperature == 0.9
  {
    Request(ModelName, QuotePrompt(level), 100, 0.9)
  }

  /** What the parser can hand back: a non-empty single line with no
      whitespace at either end. */
  predicate IsQuote(q: string) {
    q != [] && Trimmed(q) && '\n' !in q
  }

  /** `[line.strip() for line in lines if line.strip()]`. */
  function KeepNonBlank(lines: seq<string>): (r: seq<string>)
    ensures |r| <= |lines|
    ensures forall k :: 0 <= k < |r| ==> r[k] != [] && Trimmed(r[k])
    ensures (forall i :: 0 <= i < |lines| ==> '\n' !in lines[i]) ==>
              forall k :: 0 <= k < |r| ==> '\n' !in r[k]
  {
    if lines == [] then []
    else
      var last := Strip(lines[|lines| - 1]);
      KeepNonBlank(lines[..|lines| - 1]) + (if last != [] then [last] else [])
  }

  /** The positions of the lines that are not blank, in increasing order. */
  function NonBlankLines(lines: seq<string>): (r: seq<nat>)
    ensures forall k :: 0 <= k < |r| ==> r[k] < |lines| && !Blank(lines[r[k]])
    ensures forall k, m :: 0 <= k < m < |r| ==> r[k] < r[m]
    ensures forall i :: 0 <= i < |lines| && !Blank(lines[i]) ==> i in r
  {
    if lines == [] then []
    else
      var n := |lines| - 1;
      var prev := NonBlankLines(lines[..n]);
      ExtendNonBlankLines(lines, prev);
      prev + (if !Blank(lines[n]) then [n] else [])
  }

  /** The step of `NonBlankLines`: the positions for all lines but the last,
      followed by the last one when it is not blank. */
  lemma ExtendNonBlankLines(lines: seq<string>, prev: seq<nat>)
    requires |lines| >= 1
    requires forall k :: 0 <= k < |prev| ==> prev[k] < |lines| - 1 && !Blank(lines[prev[k]])
    requires forall k, m :: 0 <= k < m < |prev| ==> prev[k] < prev[m]
    requires forall i :: 0 <= i < |lines| - 1 && !Blank(lines[i]) ==> i in prev
    ensures var r := prev + (if !Blank(lines[|lines| - 1]) then [|lines| - 1] else []);
      (forall k :: 0 <= k < |r| ==> r[k] < |lines| && !Blank(lines[r[k]])) &&
      (forall k, m :: 0 <= k < m < |r| ==> r[k] < r[m]) &&
      (forall i :: 0 <= i < |lines| && !Blank(lines[i]) ==> i in r)
  {
  }

  /** The kept elements are the stripped non-blank lines, in the lines' order. */
  lemma {:induction false} KeepNonBlankInOrder(lines: seq<string>)
    ensures |KeepNonBlank(lines)| == |NonBlankLines(lines)|
    ensures forall k :: 0 <= k < |NonBlankLines(lines)| ==>
              KeepNonBlank(lines)[k] == Strip(lines[NonBlankLines(lines)[k]])
  {
    if lines != [] {
      var n := |lines| - 1;
      var init := lines[..n];
      KeepNonBlankInOrder(init);
      var r, idx := KeepNonBlank(lines), NonBlankLines(lines);
      forall k | 0 <= k < |idx| ensures r[k] == Strip(lines[idx[k]]) {
        if k < |NonBlankLines(init)| {
          assert idx[k] == NonBlankLines(init)[k];
          assert r[k] == KeepNonBlank(init)[k];
          assert init[idx[k]] == lines[idx[k]];
        }
      }
    }
  }

  /** The lines of the response: `text.strip().split("\n")`. */
  function ResponseLines(text: string): (lines: seq<string>)
    ensures |lines| >= 1
    ensures forall i :: 0 <= i < |lines| ==> '\n' !in lines[i]
  {
    Split(Strip(text), '\n')
  }

  /** The quote parser of `generate_quotes`. */
  function ParseQuotes(text: string): (quotes: seq<string>)
    ensures forall k :: 0 <= k < |quotes| ==> IsQuote(quotes[k])
    ensures |quotes| <= |ResponseLines(text)|
  {
    KeepNonBlank(ResponseLines(text))
  }

  /** There are never more quotes than lines in the raw response. */
  lemma ParseQuotesBound(text: string)
    ensures |ParseQuotes(text)| <= |Split(text, '\n')|
  {
    var a, b := StripCutsSpace(text);
    var m := Strip(text);
    assert m == text[|a|..|a| + |m|];
    OccurrencesOfSlice(text, |a|, |a| + |m|, '\n');
  }

  /** The quotes are the stripped non-blank response lines, in order. */
  lemma ParseQuotesInOrder(text: string)
    ensures var lines, idx := ResponseLines(text), NonBlankLines(ResponseLines(text));
      |ParseQuotes(text)| == |idx| &&
      forall k :: 0 <= k < |idx| ==> ParseQuotes(text)[k] == Strip(lines[idx[k]])
  {
    KeepNonBlankInOrder(ResponseLines(text));
  }

  lemma SplitTwoQuoteResponse(a: string, b: string)
    requires '\n' !in a && '\n' !in b
    ensures Split(a + "\n\n  " + b, '\n') == [a, [], "  " + b]
  {
    var t2 := "  " + b;
    var t1 := ['\n'] + t2;
    var t0 := ['\n'] + t1;
    SplitPrefix(b, [], '\n');
    assert b + [] == b;
    assert Split(b, '\n') == [b];
    SplitPrefix("  ", b, '\n');
    assert Split(t2, '\n') == [t2];
    SplitSeparatorFirst(t2, '\n');
    SplitSeparatorFirst(t1, '\n');
    assert Split(t0, '\n') == [[], [], t2];
    SplitPrefix(a, t0, '\n');
    assert a + [] == a;
    assert a + "\n\n  " + b == a + t0;
  }

  lemma KeepTwoQuoteLines(a: string, b: string)
    requires IsQuote(a) && IsQuote(b)
    ensures KeepNonBlank([a, [], "  " + b]) == [a, b]
  {
    var lines := [a, [], "  " + b];
    StripOfTrimmed(a);
    StripUnique("  ", b, []);
    assert "  " + b + [] == "  " + b;
    assert lines[..2] == [a, []];
    assert [a, []][..1] == [a];
    assert [a][..0] == [];
    assert KeepNonBlank([a]) == [a];
    assert KeepNonBlank([a, []]) == [a];
  }

  /** A response of two quotes with a blank line between them and padding
      before the second gives exactly the two quotes. */
  lemma TwoQuoteResponse(a: string, b: string)
    requires IsQuote(a) && IsQuote(b)
    ensures ParseQuotes(a + "\n\n  " + b) == [a, b]
  {
    var text := a + "\n\n  " + b;
    assert text[0] == a[0] && text[|text| - 1] == b[|b| - 1];
    StripOfTrimmed(text);
    SplitTwoQuoteResponse(a, b);
    KeepTwoQuoteLines(a, b);
  }

  /** `generate_quotes`: `None` when the generation call raises, which the
      source does not catch. */
  function GenerateQuotes(gen: Generator, level: Level): (r: Option<seq<string>>)
    ensures r.None? <==> gen(QuoteRequest(level)).None?
    ensures r.Some? ==> r.value == ParseQuotes(gen(QuoteRequest(level)).value)
  {
    match gen(QuoteRequest(level))
    case None => None
    case Some(text) => Some(ParseQuotes(text))
  }

  // ---------------------------------------------------------- success story

  const StoryPreamble: string := "\nThe following person is going through stress: \""

  const StoryInstructions: string :=
    "\"\n\nWrite a calming, realistic, and emotionally comforting success story of someone who went through a similar struggle.\n"
    + "Make it about 150\U{2013}200 words, and describe how they felt, what small steps they took, and how they slowly healed.\n"
    + "End the story with an uplifting thought that brings peace and hope.\n"

  function StoryPrompt(input: string): (p: string)
    ensures |p| == |StoryPreamble| + |input| + |StoryInstructions|
    ensures p[..|StoryPreamble|] == StoryPreamble
    ensures p[|StoryPreamble|..|StoryPreamble| + |input|] == input
    ensures p[|StoryPreamble| + |input|..] == StoryInstructions
  {
    StoryPreamble + input + StoryInstructions
  }

  /** The story prompt determines the text it was built from. */
  lemma StoryPromptInjective(a: string, b: string)
    requires StoryPrompt(a) == StoryPrompt(b)
    ensures a == b
  {
    var n := |StoryPreamble|;
    assert |a| == |b|;
    assert a == StoryPrompt(a)[n..n + |a|];
  }

  function StoryRequest(input: string): (q: Request)
    ensures q.prompt == StoryPrompt(input)
    ensures q.model == ModelName && q.maxTokens == 250 && q.temperature == 0.7
  {
    Request(ModelName, StoryPrompt(input), 250, 0.7)
  }

  const StoryFallback: string := "\U{1F9E0}" + " Unable to generate a story. Please try again later."

  /** `get_success_story`: the stripped completion, or the fixed message when
      the call raises. The result is empty only when the generator answered
      with whitespace alone. */
  function SuccessStory(gen: Generator, input: string): (story: string)
    ensures gen(StoryRequest(input)).None? ==> story == StoryFallback
    ensures gen(StoryRequest(input)).Some? ==> story == Strip(gen(StoryRequest(input)).value)
    ensures Trimmed(story)
    ensures story == [] <==> gen(StoryRequest(input)).Some? && AllSpace(gen(StoryRequest(input)).value)
  {
    match gen(StoryRequest(input))
    case None =>
      assert StoryFallback[0] == '\U{1F9E0}' && StoryFallback[|StoryFallback| - 1] == '.';
      StoryFallback
    case Some(text) => Strip(text)
  }

  // --------------------------------------------------------- static tables

  /** The two tips shown for each level. */
  function Tips(level: Level): (tips: seq<string>)
    ensures |tips| == 2 && tips[0] != tips[1]
  {
    match level
    case Low => ["\U{1F333} Take a short walk", "\U{1F3A7} Listen to calm music"]
    case Medium => ["\U{1F9D8} Try a 5-minute meditation", "\U{1F4CB} Prioritize your tasks"]
    case High => ["\U{1F4DE} Talk to a friend or therapist", "\U{270D}\U{FE0F} Journal or reflect deeply"]
  }

  /** No tip is shared between two levels. */
  lemma TipsDisjoint(a: Level, b: Level, i: nat, j: nat)
    requires a != b && i < 2 && j < 2
    ensures Tips(a)[i] != Tips(b)[j]
  {
    assert Tips(a)[i][0] != Tips(b)[j][0];
  }

  /** The "Feel Better" query of each level: non-empty, with no space at
      either end, so its link neither starts nor ends the query with `+`. */
  function VideoQuery(level: Level): (q: string)
    ensures q != [] && Trimmed(q)
  {
    match level
    case Low => "relaxing music for stress relief"
    case Medium => "guided meditation for work stress"
    case High => "motivational speech for depression"
  }

  lemma VideoQueriesDiffer(a: Level, b: Level)
    requires a != b
    ensures VideoQuery(a) != VideoQuery(b)
  {
    assert |VideoQuery(Low)| == 32 && |VideoQuery(Medium)| == 33 && |VideoQuery(High)| == 34;
  }

  const StoryQueryLead: string := "real success stories overcoming "

  /** `f"real success stories overcoming {level} stress"`. */
  function StoryQuery(level: Level): (q: string)
    ensures |q| == |StoryQueryLead| + |Label(level)| + 7
    ensures q[|StoryQueryLead|..|StoryQueryLead| + |Label(level)|] == Label(level)
  {
    StoryQueryLead + Label(level) + " stress"
  }

  /** The story query names its level. */
  lemma StoryQueryDeterminesLevel(a: Level, b: Level)
    requires StoryQuery(a) == StoryQuery(b)
    ensures a == b
  {
    var n := |StoryQueryLead|;
    assert |Label(a)| == |Label(b)|;
    assert Label(a) == StoryQuery(a)[n..n + |Label(a)|];
    assert Label(a) == Label(b);
  }

  const LinkPrefix: string := "https://www.youtube.com/results?search_query="

  /** `search_youtube_link`: the fixed prefix, then the query with every space
      turned into `+` and every other character left as it is. */
  function SearchLink(query: string): (link: string)
    ensures |link| == |LinkPrefix| + |query|
    ensures link[..|LinkPrefix|] == LinkPrefix
    ensures forall k :: 0 <= k < |query| ==>
              link[|LinkPrefix| + k] == (if query[k] == ' ' then '+' else query[k])
    ensures ' ' !in link[|LinkPrefix|..]
  {
    LinkPrefix + ReplaceChar(query, ' ', '+')
  }

  /** Nothing but the spaces is escaped, so a `+` in a query reads as a space
      in the link. */
  lemma SearchLinkConflatesPlus()
    ensures SearchLink("a b") == SearchLink("a+b")
  {
    assert ReplaceChar("a b", ' ', '+') == "a+b";
    assert ReplaceChar("a+b", ' ', '+') == "a+b";
  }

  const Affirmations: seq<string> := [
    "You are doing the best you can. And that\U{2019}s enough.",
    "Every breath you take is a step toward peace.",
    "You are stronger than you think.",
    "One small step at a time.",
    "Progress, not perfection."
  ]

  /** The affirmation of the day of the month `day`: `affirmations[day % 5]`. */
  function Affirmation(day: nat): (a: string)
    ensures a in Affirmations
  {
    Affirmations[day % |Affirmations|]
  }

  lemma AffirmationPeriodic(day: nat)
    ensures Affirmation(day + 5) == Affirmation(day)
  {
    assert (day + 5) % 5 == day % 5;
  }

  /** Any five consecutive days show every affirmation. */
  lemma EveryAffirmationWithinFiveDays(day: nat, i: nat)
    requires i < |Affirmations|
    ensures exists d :: day <= d < day + 5 && Affirmation(d) == Affirmations[i]
  {
    var k := (i - day % 5 + 5) % 5;
    assert (day + k) % 5 == i;
    assert Affirmation(day + k) == Affirmations[i];
  }

  // ------------------------------------------------------------- emotions

  datatype Emotion = Happy | Sad | Angry | Anxious | Tired | Overwhelmed | Grateful | Confused

  function EmotionEmoji(e: Emotion): char {
    match e
    case Happy => '\U{1F604}'
    case Sad => '\U{1F614}'
    case Angry => '\U{1F621}'
    case Anxious => '\U{1F630}'
    case Tired => '\U{1F634}'
    case Overwhelmed => '\U{1F92F}'
    case Grateful => '\U{1F607}'
    case Confused => '\U{1F615}'
  }

  function EmotionWord(e: Emotion): string {
    match e
    case Happy => "Happy"
    case Sad => "Sad"
    case Angry => "Angry"
    case Anxious => "Anxious"
    case Tired => "Tired"
    case Overwhelmed => "Overwhelmed"
    case Grateful => "Grateful"
    case Confused => "Confused"
  }

  /** The key shown in the multi-select: an emoji, a space and a word. */
  function EmotionKey(e: Emotion): (key: string)
    ensures |key| > 2 && key[1] == ' '
  {
    [EmotionEmoji(e), ' '] + EmotionWord(e)
  }

  /** The eight keys of the `emotions` dictionary are distinct: each starts
      with its own emoji. */
  lemma EmotionKeysDistinct(a: Emotion, b: Emotion)
    requires a != b
    ensures EmotionKey(a) != EmotionKey(b)
  {
    assert EmotionKey(a)[0] == EmotionEmoji(a) && EmotionKey(b)[0] == EmotionEmoji(b);
  }

  /** The tag the `emotions` dictionary maps that key to. */
  function EmotionTag(e: Emotion): (tag: string)
    ensures tag != [] && Trimmed(tag) && ',' !in tag
  {
    match e
    case Happy => "happy"
    case Sad => "sad"
    case Angry => "angry"
    case Anxious => "anxious"
    case Tired => "tired"
    case Overwhelmed => "overwhelmed"
    case Grateful => "grateful"
    case Confused => "confused"
  }

  /** `[emotions[e] for e in selected_emotions]`: one tag per selection, and
      the tag of every selected emotion among them. */
  function Tags(selected: seq<Emotion>): (tags: seq<string>)
    ensures |tags| == |selected|
    ensures forall e :: e in selected ==> EmotionTag(e) in tags
  {
    var tags := seq(|selected|, k requires 0 <= k < |selected| => EmotionTag(selected[k]));
    assert forall e :: e in selected ==> EmotionTag(e) in tags by {
      forall e | e in selected ensures EmotionTag(e) in tags {
        var k :| 0 <= k < |selected| && selected[k] == e;
        assert tags[k] == EmotionTag(e);
      }
    }
    tags
  }

  /** `", ".join(...)` of the tags: empty without a selection, otherwise one
      comma between each two tags and no other comma. */
  function EmotionTags(selected: seq<Emotion>): (s: string)
    ensures selected == [] ==> s == []
    ensures selected != [] ==> Occurrences(s, ',') == |selected| - 1
  {
    var tags := Tags(selected);
    assert forall k :: 0 <= k < |tags| ==> ',' !in tags[k] by {
      forall k | 0 <= k < |tags| ensures ',' !in tags[k] {
        assert tags[k] == EmotionTag(selected[k]);
      }
    }
    Join(tags, ", ")
  }

  /** The tag string loses nothing: splitting it at the commas and stripping
      each piece gives back the selected emotions' tags, in order. */
  lemma EmotionTagsRecoverable(selected: seq<Emotion>)
    requires selected != []
    ensures |Split(EmotionTags(selected), ',')| == |selected|
    ensures forall k :: 0 <= k < |selected| ==>
              Strip(Split(EmotionTags(selected), ',')[k]) == EmotionTag(selected[k])
  {
    var tags := Tags(selected);
    assert ", " == [','] + " ";
    SplitJoinPadded(tags, ',', " ");
    var parts := Split(EmotionTags(selected), ',');
    forall k | 0 <= k < |selected| ensures Strip(parts[k]) == EmotionTag(selected[k]) {
      var t := EmotionTag(selected[k]);
      if k == 0 {
        StripOfTrimmed(t);
      } else {
        StripUnique(" ", t, []);
        assert " " + t + [] == " " + t;
      }
    }
  }
}
