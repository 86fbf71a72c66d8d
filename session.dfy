/** The page's session state (`st.session_state.stress_level`, `.quotes`,
    `.story`) and the three actions that overwrite it: "Get AI Support",
    "Refresh Quotes" and "Refresh Story". A support request classifies the
    text, then fetches quotes, then the story, then logs the entry; a
    generation call that raises stops the request where it is. */
module Session {
  import opened Wrappers
  import opened Text
  import opened Stress
  import opened Content
  import opened InteractionLog

  /** How a support request ended. */
  datatype Outcome =
    | Rejected          // whitespace-only description: a warning, no call
    | ClassifierRaised  // the classification call raised
    | QuotesRaised      // the quote call raised after the level was stored
    | Completed         // level, quotes and story stored, entry logged

  /** The three session keys. */
  datatype State = State(stressLevel: Option<Level>, quotes: seq<string>, story: string)

  /** Quotes and a story are only ever stored once a level is, and every
      stored quote is one the parser produced. */
  predicate Consistent(s: State) {
    (s.stressLevel.None? ==> s.quotes == [] && s.story == []) &&
    forall k :: 0 <= k < |s.quotes| ==> IsQuote(s.quotes[k])
  }

  /** Where a support request stops: before any call for a blank
      description, at the first generation call that raises, or not at all. */
  function Decide(gen: Generator, input: string): (o: Outcome)
    ensures o.Rejected? <==> Blank(input)
    ensures o.ClassifierRaised? <==> !Blank(input) && Classify(gen, input).None?
    ensures o.QuotesRaised? <==>
              !Blank(input) && Classify(gen, input).Some? &&
              GenerateQuotes(gen, Classify(gen, input).value).None?
    ensures o.Completed? ==>
              Classify(gen, input).Some? && GenerateQuotes(gen, Classify(gen, input).value).Some?
  {
    if Blank(input) then Rejected
    else match Classify(gen, input)
      case None => ClassifierRaised
      case Some(level) => if GenerateQuotes(gen, level).None? then QuotesRaised else Completed
  }

  /** The session state after "Get AI Support". */
  function AfterSubmit(gen: Generator, input: string, s: State): (t: State)
    requires Consistent(s)
    ensures Consistent(t)
  {
    match Decide(gen, input)
    case Rejected => s
    case ClassifierRaised => s
    case QuotesRaised => s.(stressLevel := Classify(gen, input))
    case Completed =>
      var level := Classify(gen, input).value;
      State(Some(level), GenerateQuotes(gen, level).value, SuccessStory(gen, input))
  }

  /** A whitespace-only description makes no call and changes nothing. */
  lemma SubmitBlank(gen: Generator, input: string, s: State)
    requires Consistent(s) && AllSpace(input)
    ensures Decide(gen, input) == Rejected && AfterSubmit(gen, input, s) == s
  {
  }

  /** When the classification call raises, nothing is stored. */
  lemma SubmitClassifierRaises(gen: Generator, input: string, s: State)
    requires Consistent(s) && !AllSpace(input)
    requires gen(ClassifierRequest(input)).None?
    ensures Decide(gen, input) == ClassifierRaised && AfterSubmit(gen, input, s) == s
  {
  }

  /** When the quote call raises, the new level is already stored and the
      previous quotes and story stay. */
  lemma SubmitQuotesRaise(gen: Generator, input: string, s: State, reply: string)
    requires Consistent(s) && !AllSpace(input)
    requires gen(ClassifierRequest(input)) == Some(reply)
    requires gen(QuoteRequest(LevelOfReply(reply))).None?
    ensures Decide(gen, input) == QuotesRaised
    ensures AfterSubmit(gen, input, s) == State(Some(LevelOfReply(reply)), s.quotes, s.story)
  {
  }

  /** A completed request stores the classified level, the quotes parsed
      from the quote reply and the story for the description. */
  lemma SubmitCompletes(gen: Generator, input: string, s: State, reply: string, text: string)
    requires Consistent(s) && !AllSpace(input)
    requires gen(ClassifierRequest(input)) == Some(reply)
    requires gen(QuoteRequest(LevelOfReply(reply))) == Some(text)
    ensures Decide(gen, input) == Completed
    ensures AfterSubmit(gen, input, s) ==
              State(Some(LevelOfReply(reply)), ParseQuotes(text), SuccessStory(gen, input))
  {
  }

  /** The session state after "Refresh Quotes": new quotes for the stored
      level, or the old ones when the call raises. */
  function AfterRefreshQuotes(gen: Generator, s: State): (t: State)
    requires Consistent(s) && s.stressLevel.Some?
    ensures Consistent(t)
    ensures t.stressLevel == s.stressLevel && t.story == s.story
    ensures gen(QuoteRequest(s.stressLevel.value)).None? ==> t.quotes == s.quotes
    ensures gen(QuoteRequest(s.stressLevel.value)).Some? ==>
              t.quotes == ParseQuotes(gen(QuoteRequest(s.stressLevel.value)).value)
  {
    match GenerateQuotes(gen, s.stressLevel.value)
    case None => s
    case Some(q) => s.(quotes := q)
  }

  /** The session state after "Refresh Story": a story for the description
      now in the text area, everything else kept. */
  function AfterRefreshStory(gen: Generator, input: string, s: State): (t: State)
    requires Consistent(s) && s.stressLevel.Some?
    ensures Consistent(t)
    ensures t.stressLevel == s.stressLevel && t.quotes == s.quotes
    ensures t.story == SuccessStory(gen, input)
  {
    s.(story := SuccessStory(gen, input))
  }

  class Session {
    var stressLevel: Option<Level>
    var quotes: seq<string>
    var story: string

    function Snapshot(): State
      reads this
    {
      State(stressLevel, quotes, story)
    }

    ghost predicate Valid()
      reads this
    {
      Consistent(Snapshot())
    }

    /** The initial session state. */
    constructor ()
      ensures Valid()
      ensures Snapshot() == State(None, [], [])
    {
      stressLevel := None;
      quotes := [];
      story := [];
    }

    /** "Get AI Support": the new session state, and one log entry exactly
        when the request completes. */
    method Submit(gen: Generator, input: string, mood: Mood, journal: string, date: string, log: LogFile)
      returns (outcome: Outcome)
      requires Valid() && log.Valid()
      modifies this, log
      ensures Valid() && log.Valid()
      ensures outcome == Decide(gen, input)
      ensures Snapshot() == AfterSubmit(gen, input, old(Snapshot()))
      ensures !outcome.Completed? ==> log.file == old(log.file)
      ensures outcome.Completed? ==>
                log.file == WriteRow(old(log.file), Row(date, mood, stressLevel.value, input, journal))
    {
      outcome := Decide(gen, input);
      var next := AfterSubmit(gen, input, Snapshot());
      stressLevel, quotes, story := next.stressLevel, next.quotes, next.story;
      assert Snapshot() == next && Consistent(next);
      if outcome.Completed? {
        log.LogEntry(date, mood, next.stressLevel.value, input, journal);
        assert Snapshot() == next;
      }
    }

    /** "Refresh Quotes", offered once a level is stored. */
    method RefreshQuotes(gen: Generator)
      requires Valid() && stressLevel.Some?
      modifies this
      ensures Valid()
      ensures Snapshot() == AfterRefreshQuotes(gen, old(Snapshot()))
    {
      var next := AfterRefreshQuotes(gen, Snapshot());
      quotes := next.quotes;
    }

    /** "Refresh Story", offered once a level is stored. */
    method RefreshStory(gen: Generator, input: string)
      requires Valid() && stressLevel.Some?
      modifies this
      ensures Valid()
      ensures Snapshot() == AfterRefreshStory(gen, input, old(Snapshot()))
    {
      story := SuccessStory(gen, input);
    }
  }

  lemma SpacedHighIsHigh()
    ensures LevelOfReply(" high") == High
  {
    assert AllSpace(" ") && AllSpace([]);
    assert " high" == " " + "high" + [];
    LevelIgnoresPadding(" ", "high", []);
    LevelOfLabel(High);
  }

  /** The high-stress walk-through: a description the classifier answers
      with " high" (as for "I feel lost, alone and mentally drained"), with
      a quote reply, writes one entry to a fresh log carrying the level
      `high`, the text and an empty journal. */
  method HighStressScenario(gen: Generator, input: string) returns (outcome: Outcome, level: Option<Level>, view: LogView)
    requires !AllSpace(input)
    requires gen(ClassifierRequest(input)) == Some(" high")
    requires gen(QuoteRequest(High)).Some?
    ensures outcome == Completed && level == Some(High)
    ensures view == Data([Row("2024-05-01", Mood.Overwhelmed, High, input, "")])
  {
    var session := new Session();
    var log := new LogFile.Absent();
    SpacedHighIsHigh();
    SubmitCompletes(gen, input, State(None, [], []), " high", gen(QuoteRequest(High)).value);
    var row := Row("2024-05-01", Mood.Overwhelmed, High, input, "");
    FirstEntry(row);
    outcome := session.Submit(gen, input, Mood.Overwhelmed, "", "2024-05-01", log);
    level := session.stressLevel;
    view := log.Contents();
  }

  /** A whitespace-only description changes nothing and writes nothing. */
  method BlankScenario(gen: Generator) returns (outcome: Outcome, level: Option<Level>, view: LogView)
    ensures outcome == Rejected && level == None && view == NoData
  {
    var session := new Session();
    var log := new LogFile.Absent();
    assert Blank(" \t\n") by { assert AllSpace(" \t\n"); }
    outcome := session.Submit(gen, " \t\n", Mood.Calm, "", "2024-05-01", log);
    level := session.stressLevel;
    view := log.Contents();
  }
}
