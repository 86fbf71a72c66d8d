/** The stress taxonomy and the classifier: a few-shot prompt with the user's
    text embedded verbatim, one call to the text generator, and the
    normalisation of its completion into {low, medium, high} with `medium` as
    the default. */
module Stress {
  import opened Wrappers
  import opened Text

  datatype Level = Low | Medium | High

  /** The label the application stores and compares against. */
  function Label(l: Level): string {
    match l
    case Low => "low"
    case Medium => "medium"
    case High => "high"
  }

  /** The membership test `level in ["low", "medium", "high"]`, answering with
      the level the label names. */
  function ParseLabel(s: string): (r: Option<Level>)
    ensures forall l :: r == Some(l) <==> s == Label(l)
  {
    if s == "low" then Some(Low)
    else if s == "medium" then Some(Medium)
    else if s == "high" then Some(High)
    else None
  }

  /** One call to the hosted generator: model name, prompt, output-token
      budget and sampling temperature. */
  datatype Request = Request(model: string, prompt: string, maxTokens: nat, temperature: real)

  /** The generation client as an oracle: `None` when the call raises (network,
      authentication, quota, or a response without generations). */
  type Generator = Request -> Option<string>

  const ModelName: string := "command-r-plus"

  const ClassifierPreamble: string :=
    "Classify the following statement into one of these categories: low, medium, or high stress.\n\n"
    + "Text: \"I'm a little anxious but mostly okay\"\nStress Level: low\n\n"
    + "Text: \"Deadlines are crushing and I feel overwhelmed\"\nStress Level: medium\n\n"
    + "Text: \"I feel lost, alone and mentally drained\"\nStress Level: high\n\n"
    + "Text: \""

  const ClassifierClosing: string := "\"\nStress Level:"

  /** The few-shot prompt: three labelled exemplars, then the user's text. */
  function ClassifierPrompt(input: string): (p: string)
    ensures |p| == |ClassifierPreamble| + |input| + |ClassifierClosing|
    ensures p[..|ClassifierPreamble|] == ClassifierPreamble
    ensures p[|ClassifierPreamble|..|ClassifierPreamble| + |input|] == input
    ensures p[|ClassifierPreamble| + |input|..] == ClassifierClosing
  {
    ClassifierPreamble + input + ClassifierClosing
  }

  /** The prompt determines the text it was built from. */
  lemma ClassifierPromptInjective(a: string, b: string)
    requires ClassifierPrompt(a) == ClassifierPrompt(b)
    ensures a == b
  {
    var n := |ClassifierPreamble|;
    assert |a| == |b|;
    assert a == ClassifierPrompt(a)[n..n + |a|];
  }

  /** A single output token at temperature 0. */
  function ClassifierRequest(input: string): (q: Request)
    ensures q.prompt == ClassifierPrompt(input)
    ensures q.model == ModelName && q.maxTokens == 1 && q.temperature == 0.0
  {
    Request(ModelName, ClassifierPrompt(input), 1, 0.0)
  }

  /** `text.strip().lower()`: no longer than the reply, and empty exactly
      when the reply is whitespace only. */
  function Normalise(raw: string): (n: string)
    ensures |n| <= |raw|
    ensures n == [] <==> AllSpace(raw)
  {
    Lower(Strip(raw))
  }

  /** The post-processing of the completion: its normalised form when that is
      one of the three labels, `medium` otherwise. */
  function LevelOfReply(raw: string): (l: Level)
    ensures forall m :: Normalise(raw) == Label(m) ==> l == m
    ensures (forall m :: Normalise(raw) != Label(m)) ==> l == Medium
  {
    match ParseLabel(Normalise(raw))
    case Some(m) => m
    case None => Medium
  }

  /** `classify_stress`: `None` exactly when the generation call raises, which
      the source does not catch. */
  function Classify(gen: Generator, input: string): (r: Option<Level>)
    ensures r.None? <==> gen(ClassifierRequest(input)).None?
    ensures r.Some? ==> r.value == LevelOfReply(gen(ClassifierRequest(input)).value)
  {
    match gen(ClassifierRequest(input))
    case None => None
    case Some(text) => Some(LevelOfReply(text))
  }

  lemma LowerOfLabel(l: Level)
    ensures Lower(Label(l)) == Label(l)
  {
    var s := Label(l);
    var r := Lower(s);
    assert forall k :: 0 <= k < |s| ==> 'a' <= s[k] <= 'z';
    assert forall k :: 0 <= k < |s| ==> r[k] == s[k];
  }

  /** A completion that is exactly a label yields that label's level. */
  lemma LevelOfLabel(l: Level)
    ensures LevelOfReply(Label(l)) == l
  {
    StripOfTrimmed(Label(l));
    LowerOfLabel(l);
  }

  /** Whitespace around the completion does not change the classification. */
  lemma LevelIgnoresPadding(p: string, raw: string, q: string)
    requires AllSpace(p) && AllSpace(q)
    ensures LevelOfReply(p + raw + q) == LevelOfReply(raw)
  {
    StripIgnoresPadding(p, raw, q);
  }

  lemma LowerOfCapitalHigh()
    ensures Lower("HIGH") == "high"
  {
    var r := Lower("HIGH");
    assert r[0] == 'h' && r[1] == 'i' && r[2] == 'g' && r[3] == 'h';
  }

  /** Capitals and surrounding whitespace do not change the classification:
      " HIGH\n" is `high`. */
  lemma CapitalisedReply()
    ensures LevelOfReply(" HIGH\n") == High
  {
    var raw := "HIGH";
    assert AllSpace(" ") && AllSpace("\n");
    assert " HIGH\n" == " " + raw + "\n";
    LevelIgnoresPadding(" ", raw, "\n");
    StripOfTrimmed(raw);
    LowerOfCapitalHigh();
    assert Normalise(raw) == Label(High);
  }

  /** Completions outside the taxonomy default to `medium`. */
  lemma EmptyReply()
    ensures LevelOfReply("") == Medium
  {
    assert Normalise("") == [];
  }

  lemma NotApplicableReply()
    ensures LevelOfReply("n/a") == Medium
  {
    StripOfTrimmed("n/a");
    assert |Normalise("n/a")| == 3;
    assert Normalise("n/a")[0] == 'n';
  }

  lemma DescriptiveReply()
    ensures LevelOfReply("High stress") == Medium
  {
    StripOfTrimmed("High stress");
    assert |Normalise("High stress")| == 11;
  }
}
